/** The landing page of the client (`app.js`): the typewriter that types a
    rule section's text nodes back in one character per timeout, the
    tournament countdown, the rules chosen from the host name, the light/dark
    theme switch and the one-shot guard around entering the game. */
module Landing {
  import opened JsValues
  import opened TimeParts

  // ---------------------------------------------------------------------
  // Typewriter

  /** What the live copy of a section shows while the cursor is at node `n`,
      character `c`: the nodes before `n` in full, node `n` up to `c`, the
      nodes after it empty. */
  function TypedSoFar(original: seq<string>, n: nat, c: nat): (live: seq<string>)
    requires n <= |original| && (n < |original| ==> c <= |original[n]|)
    ensures |live| == |original|
  {
    seq(|original|, i requires 0 <= i < |original| =>
      if i < n then original[i] else if i == n then original[i][..c] else "")
  }

  /** Every live node is a prefix of its original: typing never shows
      text the section does not hold. */
  lemma TypedIsPrefix(original: seq<string>, n: nat, c: nat, i: nat)
    requires n <= |original| && (n < |original| ==> c <= |original[n]|)
    requires i < |original|
    ensures TypedSoFar(original, n, c)[i] <= original[i]
    ensures i < n ==> TypedSoFar(original, n, c)[i] == original[i]
    ensures i > n ==> TypedSoFar(original, n, c)[i] == ""
  {
  }

  /** Once the cursor is past every node, the live copy is the original. */
  lemma TypedAllIsOriginal(original: seq<string>, c: nat)
    ensures TypedSoFar(original, |original|, c) == original
  {
    var live := TypedSoFar(original, |original|, c);
    forall i | 0 <= i < |original|
      ensures live[i] == original[i]
    {
    }
  }

  /** Typing one character of node `n` extends exactly that node by it. */
  lemma TypedOneMore(original: seq<string>, n: nat, c: nat)
    requires n < |original| && c < |original[n]|
    ensures var live := TypedSoFar(original, n, c);
      live[n := live[n] + [original[n][c]]] == TypedSoFar(original, n, c + 1)
  {
    var live := TypedSoFar(original, n, c);
    var next := TypedSoFar(original, n, c + 1);
    assert original[n][..c] + [original[n][c]] == original[n][..c + 1];
    forall i | 0 <= i < |original|
      ensures live[n := live[n] + [original[n][c]]][i] == next[i]
    {
    }
  }

  /** A finished node hands the cursor to the next one without changing
      what is shown. */
  lemma TypedNextNode(original: seq<string>, n: nat)
    requires n < |original|
    ensures TypedSoFar(original, n, |original[n]|) == TypedSoFar(original, n + 1, 0)
  {
    var a := TypedSoFar(original, n, |original[n]|);
    var b := TypedSoFar(original, n + 1, 0);
    forall i | 0 <= i < |original|
      ensures a[i] == b[i]
    {
      if i == n {
        assert original[n][..|original[n]|] == original[n];
      } else if i == n + 1 {
        assert original[i][..0] == "";
      }
    }
  }

  /** One collapsible rule section and its `typewriterEffect`. `original`
      holds the text nodes of the section's saved HTML, `live` those of the
      element on the page. */
  class Typewriter {
    const original: seq<string>
    var live: seq<string>
    var nodeIndex: nat
    var charIndex: nat
    /** A `type` callback is scheduled with `setTimeout`. */
    var armed: bool
    /** `dataset.typingTimeout` is present. */
    var recorded: bool
    /** The `typing-cursor` class is on the element. */
    var cursorShown: bool
    /** The section's content is expanded. */
    var expanded: bool

    /** The two-index cursor is consistent with what is on the page. */
    predicate Typing()
      reads this
    {
      && nodeIndex <= |original|
      && (nodeIndex < |original| ==> charIndex <= |original[nodeIndex]|)
      && live == TypedSoFar(original, nodeIndex, charIndex)
    }

    /** While a callback is scheduled the cursor is consistent and shown;
        whenever none is, the section shows its full text. */
    predicate Valid()
      reads this
    {
      && (armed ==> Typing() && nodeIndex < |original| && recorded && cursorShown)
      && (!armed ==> live == original)
    }

    /** A collapsed section showing its saved HTML. */
    constructor (textNodes: seq<string>)
      ensures original == textNodes && live == textNodes
      ensures !armed && !recorded && !cursorShown && !expanded
      ensures Valid()
    {
      original := textNodes;
      live := textNodes;
      nodeIndex, charIndex := 0, 0;
      armed, recorded, cursorShown, expanded := false, false, false, false;
    }

    /** One run of `type`: skip the finished nodes, then either type the
        next character and schedule the next run, or take the cursor away. */
    method TypeNext()
      requires Typing()
      modifies this`live, this`nodeIndex, this`charIndex, this`armed, this`recorded, this`cursorShown
      ensures Typing()
      ensures nodeIndex >= old(nodeIndex)
      ensures nodeIndex > old(nodeIndex) ==> old(charIndex) >= |original[old(nodeIndex)]|
      ensures forall k | old(nodeIndex) < k < nodeIndex :: original[k] == ""
      ensures armed ==> nodeIndex < |original| && recorded && cursorShown == old(cursorShown)
      ensures armed && nodeIndex == old(nodeIndex) ==> charIndex == old(charIndex) + 1
      ensures armed && nodeIndex > old(nodeIndex) ==> charIndex == 1
      ensures !armed ==> nodeIndex == |original| && live == original && !recorded && !cursorShown
    {
      while nodeIndex < |original| && charIndex >= |original[nodeIndex]|
        invariant Typing() && nodeIndex >= old(nodeIndex)
        invariant nodeIndex == old(nodeIndex) ==> charIndex == old(charIndex)
        invariant nodeIndex > old(nodeIndex) ==> charIndex == 0 && old(charIndex) >= |original[old(nodeIndex)]|
        invariant forall k | old(nodeIndex) < k < nodeIndex :: original[k] == ""
        invariant cursorShown == old(cursorShown) && armed == old(armed) && recorded == old(recorded)
        decreases |original| - nodeIndex
      {
        TypedNextNode(original, nodeIndex);
        nodeIndex, charIndex := nodeIndex + 1, 0;
      }
      if nodeIndex < |original| {
        TypedOneMore(original, nodeIndex, charIndex);
        live := live[nodeIndex := live[nodeIndex] + [original[nodeIndex][charIndex]]];
        charIndex := charIndex + 1;
        armed, recorded := true, true;
      } else {
        TypedAllIsOriginal(original, charIndex);
        cursorShown := false;
        recorded := false;
        armed := false;
      }
    }

    /** The first step of `typewriterEffect`: an animation left behind is
        stopped and the full text put back before anything else. */
    method ClearPendingTyping()
      modifies this`live, this`armed, this`recorded, this`cursorShown
      ensures old(recorded) ==> live == original && !armed && !recorded && !cursorShown
      ensures !old(recorded) ==> live == old(live) && armed == old(armed) && !recorded &&
                                 cursorShown == old(cursorShown)
    {
      if recorded {
        armed := false;
        live := original;
        cursorShown := false;
        recorded := false;
      }
    }

    /** `typewriterEffect`: empty every live node, show the cursor and run
        `type` once. */
    method Start()
      modifies this`live, this`nodeIndex, this`charIndex, this`armed, this`recorded, this`cursorShown
      ensures Valid()
      ensures armed ==> nodeIndex < |original| && charIndex == 1 && cursorShown && recorded
      ensures armed ==> forall k | 0 <= k < nodeIndex :: original[k] == ""
      ensures !armed <==> forall k | 0 <= k < |original| :: original[k] == ""
      ensures !armed ==> !cursorShown && !recorded
    {
      ClearPendingTyping();
      live := seq(|original|, i => "");
      cursorShown := true;
      nodeIndex, charIndex := 0, 0;
      armed := false;
      assert live == TypedSoFar(original, 0, 0);
      TypeNext();
      if armed {
        assert original[nodeIndex] != "";
      }
    }

    /** A click on the section header: a collapsed section is emptied and
        typed in again; an expanded one is collapsed, and a running
        animation is cut short with the full text shown. */
    method HeaderClicked()
      requires Valid()
      modifies this
      ensures expanded == !old(expanded)
      ensures Valid()
      ensures expanded ==> (armed ==> nodeIndex < |original| && charIndex == 1 && cursorShown && recorded)
      ensures expanded ==> (armed ==> forall k | 0 <= k < nodeIndex :: original[k] == "")
      ensures expanded ==> (!armed <==> forall k | 0 <= k < |original| :: original[k] == "")
      ensures expanded && !armed ==> !cursorShown && !recorded
      ensures !expanded ==> !armed && live == original && recorded == old(recorded)
      ensures !expanded ==> cursorShown == old(cursorShown)
    {
      if !expanded {
        expanded := true;
        live := [];
        Start();
      } else {
        expanded := false;
        if recorded {
          armed := false;
          live := original;
        }
      }
    }

    /** Every scheduled `type` callback fires in turn until none is left;
        the section then shows its full text without the cursor. */
    method RunPendingTimeouts()
      requires Valid()
      modifies this`live, this`nodeIndex, this`charIndex, this`armed, this`recorded, this`cursorShown
      ensures Valid() && !armed && live == original
      ensures old(armed) ==> !recorded && !cursorShown
      ensures !old(armed) ==> recorded == old(recorded) && cursorShown == old(cursorShown)
    {
      while armed
        invariant Valid()
        invariant old(armed) && !armed ==> !recorded && !cursorShown
        invariant !old(armed) ==> !armed && recorded == old(recorded) && cursorShown == old(cursorShown)
        decreases |original| - nodeIndex,
                  if armed && nodeIndex < |original| && charIndex <= |original[nodeIndex]|
                  then |original[nodeIndex]| - charIndex else 0
      {
        TypeNext();
      }
    }
  }

  // ---------------------------------------------------------------------
  // Tournament countdown

  /** 2025-10-25T00:00:00Z in milliseconds since the epoch. */
  const TournamentStartMs := 1761350400000

  /** The countdown's inner HTML for a non-negative distance. */
  function CountdownText(distanceMs: nat): (r: string)
    ensures |r| >= 40 && r[..30] == "Tournament starts in: <strong>"
    ensures r[|r| - 10..] == "s</strong>"
  {
    var p := Decompose(distanceMs);
    "Tournament starts in: <strong>" + NatToDecimal(p.days) + "d " + NatToDecimal(p.hours) + "h " +
    NatToDecimal(p.minutes) + "m " + NatToDecimal(p.seconds) + "s</strong>"
  }

  /** The hour, minute and second figures shown have at most two digits. */
  lemma CountdownFiguresShort(distanceMs: nat)
    ensures var p := Decompose(distanceMs);
      |NatToDecimal(p.hours)| <= 2 && |NatToDecimal(p.minutes)| <= 2 && |NatToDecimal(p.seconds)| <= 2
  {
    var p := Decompose(distanceMs);
    ShortDecimal(p.hours);
    ShortDecimal(p.minutes);
    ShortDecimal(p.seconds);
  }

  lemma ShortDecimal(n: nat)
    requires n < 100
    ensures |NatToDecimal(n)| <= 2
  {
    if n >= 10 {
      assert NatToDecimal(n) == NatToDecimal(n / 10) + [DigitChar(n % 10)];
    }
  }

  /** The `tournament-countdown` element and its one-second interval. */
  class TournamentCountdown {
    const startMs: int
    var shown: bool
    var intervalActive: bool
    var text: string

    /** `setInterval(updateCountdown, 1000)` followed by the initial call. */
    constructor (start: int, nowMs: int)
      ensures startMs == start
      ensures start - nowMs < 0 ==> !shown && !intervalActive
      ensures start - nowMs >= 0 ==> shown && intervalActive && text == CountdownText(start - nowMs)
    {
      startMs := start;
      shown, intervalActive, text := true, true, "";
      new;
      Tick(nowMs);
    }

    /** One run of `updateCountdown` at time `nowMs`. */
    method Tick(nowMs: int)
      modifies this`shown, this`intervalActive, this`text
      ensures startMs - nowMs < 0 ==> !shown && !intervalActive && text == old(text)
      ensures startMs - nowMs >= 0 ==>
        shown == old(shown) && intervalActive == old(intervalActive) && text == CountdownText(startMs - nowMs)
    {
      var distance := startMs - nowMs;
      if distance < 0 {
        shown := false;
        intervalActive := false;
        return;
      }
      text := CountdownText(distance);
    }
  }

  // ---------------------------------------------------------------------
  // Rules from the host name

  datatype Rules = Rules(network: string, stake: string, commission: string)

  const MainnetRules := Rules("(Ethereum Mainnet)", "(0.02 ETH)", "3%")
  const BaseRules := Rules("(Base)", "(0.007 ETH)", "3%")
  const TestnetRules := Rules("(Arbitrum Sepolia Testnet)", "(0.0007 Test-ETH)", "3%")
  const DefaultRules := Rules("(Arbitrum One)", "(0.0007 ETH)", "3%")

  /** `updateRulesFromDomain`: the first of the three deployment markers the
      host name contains decides the rules; none gives Arbitrum One. */
  function RulesFromHost(hostname: string): (r: Rules)
    ensures r.commission == "3%"
    ensures r in {MainnetRules, BaseRules, TestnetRules, DefaultRules}
  {
    if Includes(hostname, "eth.muschairs.com") then MainnetRules
    else if Includes(hostname, "base.muschairs.com") then BaseRules
    else if Includes(hostname, "test.muschairs.com") then TestnetRules
    else DefaultRules
  }

  /** The rule table as data, in the order the host name is tested. */
  const RuleTable: seq<(string, Rules)> := [
    ("eth.muschairs.com", MainnetRules),
    ("base.muschairs.com", BaseRules),
    ("test.muschairs.com", TestnetRules)]

  /** First-match lookup in a rule table. */
  function FirstMatch(table: seq<(string, Rules)>, hostname: string, fallback: Rules): Rules {
    if table == [] then fallback
    else if Includes(hostname, table[0].0) then table[0].1
    else FirstMatch(table[1..], hostname, fallback)
  }

  /** The branch chain is a first-match lookup in the table. */
  lemma RulesAreFirstMatch(hostname: string)
    ensures RulesFromHost(hostname) == FirstMatch(RuleTable, hostname, DefaultRules)
  {
    var t1, t2 := RuleTable[1..], RuleTable[2..];
    assert t1[1..] == t2 && t2[1..] == [];
    assert FirstMatch(t2, hostname, DefaultRules) ==
      if Includes(hostname, "test.muschairs.com") then TestnetRules else DefaultRules;
  }

  /** A host under a deployment's domain gets that deployment's rules. */
  lemma SubdomainGetsRules(prefix: string)
    ensures RulesFromHost(prefix + "eth.muschairs.com") == MainnetRules
  {
    var h := prefix + "eth.muschairs.com";
    IncludesSelf(h);
    IncludesSuffix(h, prefix, "eth.muschairs.com");
  }

  /** The three deployments' own host names get their own rules, and a host
      such as the bare domain gets the default. */
  lemma BaseHostGetsBaseRules()
    ensures RulesFromHost("base.muschairs.com") == BaseRules
  {
    IncludesSelf("base.muschairs.com");
    BaseHostLacksEthMarker();
  }

  lemma TestHostGetsTestnetRules()
    ensures RulesFromHost("test.muschairs.com") == TestnetRules
  {
    IncludesSelf("test.muschairs.com");
    TestHostLacksEthMarker();
    TestHostLacksBaseMarker();
  }

  lemma BareDomainGetsDefaultRules()
    ensures RulesFromHost("muschairs.com") == DefaultRules
  {
  }

  lemma BaseHostLacksEthMarker()
    ensures !Includes("base.muschairs.com", "eth.muschairs.com")
  {
    var base, eth := "base.muschairs.com", "eth.muschairs.com";
    WindowDiffers(base, eth, 0, 0);
    WindowDiffers(base, eth, 1, 0);
  }

  lemma TestHostLacksEthMarker()
    ensures !Includes("test.muschairs.com", "eth.muschairs.com")
  {
    var test, eth := "test.muschairs.com", "eth.muschairs.com";
    WindowDiffers(test, eth, 0, 0);
    WindowDiffers(test, eth, 1, 1);
  }

  lemma TestHostLacksBaseMarker()
    ensures !Includes("test.muschairs.com", "base.muschairs.com")
  {
    WindowDiffers("test.muschairs.com", "base.muschairs.com", 0, 0);
  }

  /** `sub` does not occur at offset `i` of `s` when one character differs. */
  lemma WindowDiffers(s: string, sub: string, i: nat, j: nat)
    requires i + |sub| <= |s| && j < |sub| && s[i + j] != sub[j]
    ensures !OccursAt(s, sub, i)
  {
  }

  // ---------------------------------------------------------------------
  // Theme

  /** `localStorage.getItem("theme") || "dark"`. */
  function SavedTheme(stored: Option<string>): (theme: string)
    ensures Truthy(stored) ==> theme == stored.value
    ensures !Truthy(stored) ==> theme == "dark"
  {
    if Truthy(stored) then stored.value else "dark"
  }

  /** The theme the toggle's `change` handler saves. */
  function ToggleTheme(checked: bool): (theme: string)
    ensures theme == "light" <==> checked
  {
    if checked then "light" else "dark"
  }

  /** A theme saved from the toggle comes back, on the next load, with the
      toggle in the same position. */
  lemma SavedToggleRestored(checked: bool)
    ensures (SavedTheme(Some(ToggleTheme(checked))) == "light") == checked
  {
  }

  /** The body's `light-theme` class, the toggle and the stored theme. */
  class ThemeSwitch {
    var lightClass: bool
    var toggleChecked: bool
    var stored: Option<string>

    /** Page load: read the stored theme and apply it. */
    constructor (storedTheme: Option<string>)
      ensures stored == storedTheme
      ensures lightClass == (SavedTheme(storedTheme) == "light") && toggleChecked == lightClass
    {
      stored := storedTheme;
      lightClass, toggleChecked := false, false;
      new;
      ApplyTheme(SavedTheme(storedTheme));
    }

    /** `applyTheme`: only `"light"` selects the light theme. */
    method ApplyTheme(theme: string)
      modifies this`lightClass, this`toggleChecked
      ensures lightClass == (theme == "light") && toggleChecked == lightClass
    {
      if theme == "light" {
        lightClass, toggleChecked := true, true;
      } else {
        lightClass, toggleChecked := false, false;
      }
    }

    /** The user flips the toggle to `checked`; the handler saves and
        applies the matching theme. */
    method ToggleChanged(checked: bool)
      modifies this
      ensures stored == Some(ToggleTheme(checked))
      ensures lightClass == checked && toggleChecked == checked
    {
      toggleChecked := checked;
      var newTheme := ToggleTheme(toggleChecked);
      stored := Some(newTheme);
      ApplyTheme(newTheme);
    }
  }

  // ---------------------------------------------------------------------
  // Entering the game

  /** The "Play Now" button's handler and the flag that makes the full
      initialisation run once. The handler is attached only when the button
      and the landing, app and detailed-rules sections exist; the story
      section is not among them, and when it is missing the handler throws
      right after hiding the landing section. */
  class EntryGuard {
    const listening: bool
    const storyPresent: bool
    var isAppEntered: bool
    var initAppCalls: nat
    var musicStarts: nat
    var landingHidden: bool
    /** The story and detailed-rules sections are hidden. */
    var sectionsHidden: bool
    var appShown: bool

    predicate Valid()
      reads this
    {
      && initAppCalls == (if isAppEntered then 1 else 0) && musicStarts == initAppCalls
      && (isAppEntered ==> listening && storyPresent)
    }

    constructor (elementsPresent: bool, storyElementPresent: bool)
      ensures listening == elementsPresent && storyPresent == storyElementPresent
      ensures !isAppEntered && initAppCalls == 0 && musicStarts == 0
      ensures !landingHidden && !sectionsHidden && !appShown
      ensures Valid()
    {
      listening, storyPresent := elementsPresent, storyElementPresent;
      isAppEntered, initAppCalls, musicStarts := false, 0, 0;
      landingHidden, sectionsHidden, appShown := false, false, false;
    }

    /** A click on "Play Now": the sections are switched every time, the
        music and `initApp` only on the first click. Without the story
        section the click stops after hiding the landing section. */
    method EnterAppClicked()
      requires Valid()
      modifies this
      ensures Valid()
      ensures listening && storyPresent ==>
        isAppEntered && initAppCalls == 1 && landingHidden && sectionsHidden && appShown
      ensures listening && !storyPresent ==>
        landingHidden && sectionsHidden == old(sectionsHidden) && appShown == old(appShown) &&
        !isAppEntered && initAppCalls == 0 && musicStarts == 0
      ensures !listening ==> unchanged(this)
    {
      if !listening {
        return;
      }
      landingHidden := true;
      if !storyPresent {
        return;
      }
      sectionsHidden, appShown := true, true;
      if !isAppEntered {
        isAppEntered := true;
        musicStarts := musicStarts + 1;
        initAppCalls := initAppCalls + 1;
      }
    }
  }

  /** However many clicks arrive, `initApp` runs at most once: exactly once
      after a first click on a page with every section, never on a page
      without the story section. */
  method ClickRepeatedly(g: EntryGuard, clicks: nat)
    requires g.Valid()
    modifies g
    ensures g.Valid() && g.initAppCalls <= 1
    ensures g.listening && g.storyPresent && clicks > 0 ==> g.initAppCalls == 1
    ensures !(g.listening && g.storyPresent) ==> g.initAppCalls == 0 && g.appShown == old(g.appShown)
  {
    var k := 0;
    while k < clicks
      invariant 0 <= k <= clicks
      invariant g.Valid()
      invariant g.listening && g.storyPresent && k > 0 ==> g.initAppCalls == 1
      invariant !(g.listening && g.storyPresent) ==> g.initAppCalls == 0 && g.appShown == old(g.appShown)
    {
      g.EnterAppClicked();
      k := k + 1;
    }
  }
}
