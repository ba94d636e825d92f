/** The trigger test shared by both programs: a payload raises an alert when,
    with outer whitespace removed and lower-cased, it is one of the lower-cased
    trigger values. Python's `str.strip()` and `str.lower()` are modelled here
    on already-decoded strings. */
module Trigger {
  import opened Config

  /** The characters for which Python's `str.isspace()` holds: the ones
      `str.strip()` removes when called without arguments. */
  const WHITESPACE: set<char> := {
    '\U{9}', '\U{A}', '\U{B}', '\U{C}', '\U{D}',
    '\U{1C}', '\U{1D}', '\U{1E}', '\U{1F}', '\U{20}',
    '\U{85}', '\U{A0}', '\U{1680}',
    '\U{2000}', '\U{2001}', '\U{2002}', '\U{2003}', '\U{2004}', '\U{2005}',
    '\U{2006}', '\U{2007}', '\U{2008}', '\U{2009}', '\U{200A}',
    '\U{2028}', '\U{2029}', '\U{202F}', '\U{205F}', '\U{3000}'
  }

  /** Every character of `s` is in `cs`. */
  predicate AllIn(s: string, cs: set<char>) {
    forall i :: 0 <= i < |s| ==> s[i] in cs
  }

  /** `s.lstrip(cs)`: a suffix of `s`; what it cuts off is made of
      characters of `cs`, and it does not start with one. */
  function StripLeft(s: string, cs: set<char>): (r: string)
    ensures r != [] ==> r[0] !in cs
  {
    if s != [] && s[0] in cs then StripLeft(s[1..], cs) else s
  }

  /** `s.rstrip(cs)`: a prefix of `s`; what it cuts off is made of
      characters of `cs`, and it does not end with one. */
  function StripRight(s: string, cs: set<char>): (r: string)
    ensures r != [] ==> r[|r| - 1] !in cs
  {
    if s != [] && s[|s| - 1] in cs then StripRight(s[..|s| - 1], cs) else s
  }

  /** `s.strip(cs)`: both ends; the result neither starts nor ends with a
      character of `cs`. */
  function StripChars(s: string, cs: set<char>): (r: string)
    ensures Trimmed(r, cs)
  {
    StripRightKeepsFirst(StripLeft(s, cs), cs);
    StripRight(StripLeft(s, cs), cs)
  }

  /** `rstrip` keeps the first character of whatever it does not remove. */
  lemma {:induction false} StripRightKeepsFirst(s: string, cs: set<char>)
    ensures StripRight(s, cs) != [] ==> StripRight(s, cs)[0] == s[0]
  {
    if s != [] && s[|s| - 1] in cs {
      StripRightKeepsFirst(s[..|s| - 1], cs);
    }
  }

  /** `s.strip()`: both ends, whitespace. */
  function Strip(s: string): (r: string)
    ensures Trimmed(r, WHITESPACE)
  {
    StripChars(s, WHITESPACE)
  }

  /** Empty, or neither starting nor ending with a character of `cs`. */
  predicate Trimmed(s: string, cs: set<char>) {
    s == [] || (s[0] !in cs && s[|s| - 1] !in cs)
  }

  /** `c.lower()` for the characters that can matter here: ASCII capitals
      become small letters, every other character is kept. */
  function LowerChar(c: char): (r: char)
    ensures !('A' <= c <= 'Z') ==> r == c
    ensures 'A' <= c <= 'Z' ==> 'a' <= r <= 'z' && r as int - 'a' as int == c as int - 'A' as int
  {
    if 'A' <= c <= 'Z' then (c as int + 32) as char else c
  }

  /** `s.lower()`: the same length, every character lowered. */
  function Lower(s: string): (r: string)
    ensures |r| == |s|
    ensures forall i :: 0 <= i < |s| ==> r[i] == LowerChar(s[i])
  {
    if s == [] then [] else [LowerChar(s[0])] + Lower(s[1..])
  }

  /** `[v.lower() for v in vs]`. */
  function LowerAll(vs: seq<string>): (r: seq<string>)
    ensures |r| == |vs|
    ensures forall i :: 0 <= i < |vs| ==> r[i] == Lower(vs[i])
  {
    if vs == [] then [] else [Lower(vs[0])] + LowerAll(vs[1..])
  }

  /** The value of the comprehension that lower-cases TRIGGER_VALUES, which
      the trigger test rebuilds on every message; LoweredTriggers proves it. */
  const LOWERED_TRIGGERS: seq<string> := ["on", "on", "\"on\"", "\"on\""]

  /** The trigger test of both programs' `on_message`: it accepts exactly the
      payloads that, trimmed and lower-cased, are `on` or `"on"` with the
      quotes. */
  predicate Matches(payload: string)
    ensures Matches(payload) <==>
            Lower(Strip(payload)) == "on" || Lower(Strip(payload)) == "\"on\""
  {
    Lower(Strip(payload)) in LOWERED_TRIGGERS
  }

  /** Independent description of an accepted stripped payload: `on` or
      `"on"` in any mix of letter cases. */
  predicate IsO(c: char) { c == 'o' || c == 'O' }
  predicate IsN(c: char) { c == 'n' || c == 'N' }
  predicate IsTriggerToken(t: string) {
    || (|t| == 2 && IsO(t[0]) && IsN(t[1]))
    || (|t| == 4 && t[0] == '"' && IsO(t[1]) && IsN(t[2]) && t[3] == '"')
  }

  // ---------------------------------------------------------------------
  // Stripping

  lemma {:induction false} StripLeftPadded(a: string, t: string, cs: set<char>)
    requires AllIn(a, cs)
    requires t == [] || t[0] !in cs
    ensures StripLeft(a + t, cs) == t
  {
    if a != [] {
      assert (a + t)[1..] == a[1..] + t;
      StripLeftPadded(a[1..], t, cs);
    } else {
      assert a + t == t;
    }
  }

  lemma {:induction false} StripRightPadded(t: string, b: string, cs: set<char>)
    requires AllIn(b, cs)
    requires t == [] || t[|t| - 1] !in cs
    ensures StripRight(t + b, cs) == t
  {
    if b != [] {
      var s := t + b;
      assert s[..|s| - 1] == t + b[..|b| - 1];
      StripRightPadded(t, b[..|b| - 1], cs);
    } else {
      assert t + b == t;
    }
  }

  /** Stripping removes exactly the outer characters of `cs`: whatever such
      characters surround a trimmed core, stripping gives back that core. */
  lemma StripUnique(a: string, core: string, b: string, cs: set<char>)
    requires AllIn(a, cs) && AllIn(b, cs) && Trimmed(core, cs)
    ensures StripChars(a + core + b, cs) == core
  {
    if core == [] {
      assert a + core + b == a + b;
      assert AllIn(a + b, cs);
      StripLeftPadded(a + b, [], cs);
      assert a + b + [] == a + b;
    } else {
      assert a + core + b == a + (core + b);
      StripLeftPadded(a, core + b, cs);
      StripRightPadded(core, b, cs);
    }
  }

  /** `lstrip` cuts off a prefix made of characters of `cs`, and what is
      left does not start with one. */
  lemma {:induction false} StripLeftSplits(s: string, cs: set<char>) returns (a: string)
    ensures AllIn(a, cs) && s == a + StripLeft(s, cs)
  {
    if s != [] && s[0] in cs {
      var a' := StripLeftSplits(s[1..], cs);
      a := [s[0]] + a';
      assert s == [s[0]] + s[1..];
    } else {
      a := [];
    }
  }

  /** `rstrip` cuts off a suffix made of characters of `cs`, and what is
      left does not end with one. */
  lemma {:induction false} StripRightSplits(s: string, cs: set<char>) returns (b: string)
    ensures AllIn(b, cs) && s == StripRight(s, cs) + b
  {
    if s != [] && s[|s| - 1] in cs {
      var b' := StripRightSplits(s[..|s| - 1], cs);
      b := b' + [s[|s| - 1]];
      assert s == s[..|s| - 1] + [s[|s| - 1]];
    } else {
      b := [];
    }
  }

  /** Every string is its stripped form surrounded by characters of
      `cs`. */
  lemma StripSplits(s: string, cs: set<char>) returns (a: string, b: string)
    ensures AllIn(a, cs) && AllIn(b, cs)
    ensures s == a + StripChars(s, cs) + b
  {
    var l := StripLeft(s, cs);
    a := StripLeftSplits(s, cs);
    b := StripRightSplits(l, cs);
    var c := StripRight(l, cs);
    assert c == StripChars(s, cs);
    assert l == c + b;
    assert a + c + b == a + (c + b);
  }

  /** Only outer characters are ignored: padding a string on either side
      does not change its stripped form. */
  lemma StripPadded(a: string, s: string, b: string, cs: set<char>)
    requires AllIn(a, cs) && AllIn(b, cs)
    ensures StripChars(a + s + b, cs) == StripChars(s, cs)
  {
    var a', b' := StripSplits(s, cs);
    var c := StripChars(s, cs);
    assert a + s + b == (a + a') + c + (b' + b);
    assert AllIn(a + a', cs) && AllIn(b' + b, cs);
    StripUnique(a + a', c, b' + b, cs);
  }

  // ---------------------------------------------------------------------
  // Lower-casing

  lemma LowerConcat(s: string, t: string)
    ensures Lower(s + t) == Lower(s) + Lower(t)
  {
    assert forall i :: 0 <= i < |s + t| ==> Lower(s + t)[i] == (Lower(s) + Lower(t))[i];
  }

  lemma LowerIdempotent(s: string)
    ensures Lower(Lower(s)) == Lower(s)
  {
  }

  /** Lower-casing only touches ASCII capitals, none of which is whitespace. */
  lemma LowerCharKeepsWhitespace(c: char)
    ensures LowerChar(c) in WHITESPACE <==> c in WHITESPACE
  {
    if 'A' <= c <= 'Z' {
      assert c !in WHITESPACE && LowerChar(c) !in WHITESPACE;
    }
  }

  /** Lower-casing neither creates nor removes whitespace, so it commutes
      with stripping. */
  lemma StripLower(s: string)
    ensures Strip(Lower(s)) == Lower(Strip(s))
  {
    var a, b := StripSplits(s, WHITESPACE);
    var c := Strip(s);
    LowerConcat(a, c);
    LowerConcat(a + c, b);
    forall i | 0 <= i < |a| ensures Lower(a)[i] in WHITESPACE {
      LowerCharKeepsWhitespace(a[i]);
    }
    forall i | 0 <= i < |b| ensures Lower(b)[i] in WHITESPACE {
      LowerCharKeepsWhitespace(b[i]);
    }
    if c != [] {
      LowerCharKeepsWhitespace(c[0]);
      LowerCharKeepsWhitespace(c[|c| - 1]);
    }
    StripUnique(Lower(a), Lower(c), Lower(b), WHITESPACE);
  }

  // ---------------------------------------------------------------------
  // The trigger test

  /** The lower-cased trigger list is LOWERED_TRIGGERS. */
  lemma LoweredTriggers()
    ensures LowerAll(TRIGGER_VALUES) == LOWERED_TRIGGERS
  {
    assert Lower("on") == "on";
    assert Lower("ON") == "on";
    assert Lower("\"on\"") == "\"on\"";
    assert Lower("\"ON\"") == "\"on\"";
  }

  /** The characters that lower-case to the characters of the trigger
      token. */
  lemma LowerCharIsO(c: char)
    ensures LowerChar(c) == 'o' <==> IsO(c)
  {
  }

  lemma LowerCharIsN(c: char)
    ensures LowerChar(c) == 'n' <==> IsN(c)
  {
  }

  lemma LowerCharIsQuote(c: char)
    ensures LowerChar(c) == '"' <==> c == '"'
  {
  }

  lemma LowerIsOn(t: string)
    ensures Lower(t) == "on" <==> |t| == 2 && IsO(t[0]) && IsN(t[1])
  {
    if Lower(t) == "on" {
      LowersToOn(t);
    }
    if |t| == 2 && IsO(t[0]) && IsN(t[1]) {
      OnLowers(t);
    }
  }

  lemma LowersToOn(t: string)
    requires Lower(t) == "on"
    ensures |t| == 2 && IsO(t[0]) && IsN(t[1])
  {
    var l := Lower(t);
    assert l[0] == 'o' && l[1] == 'n';
    LowerCharIsO(t[0]);
    LowerCharIsN(t[1]);
  }

  lemma OnLowers(t: string)
    requires |t| == 2 && IsO(t[0]) && IsN(t[1])
    ensures Lower(t) == "on"
  {
    var l := Lower(t);
    LowerCharIsO(t[0]);
    LowerCharIsN(t[1]);
    assert l[0] == 'o' && l[1] == 'n';
  }

  lemma LowerIsQuotedOn(t: string)
    ensures Lower(t) == "\"on\"" <==>
            |t| == 4 && t[0] == '"' && IsO(t[1]) && IsN(t[2]) && t[3] == '"'
  {
    if Lower(t) == "\"on\"" {
      LowersToQuotedOn(t);
    }
    if |t| == 4 && t[0] == '"' && IsO(t[1]) && IsN(t[2]) && t[3] == '"' {
      QuotedOnLowers(t);
    }
  }

  lemma LowersToQuotedOn(t: string)
    requires Lower(t) == "\"on\""
    ensures |t| == 4 && t[0] == '"' && IsO(t[1]) && IsN(t[2]) && t[3] == '"'
  {
    var l := Lower(t);
    assert l[0] == '"' && l[1] == 'o' && l[2] == 'n' && l[3] == '"';
    LowerCharIsQuote(t[0]);
    LowerCharIsO(t[1]);
    LowerCharIsN(t[2]);
    LowerCharIsQuote(t[3]);
  }

  lemma QuotedOnLowers(t: string)
    requires |t| == 4 && t[0] == '"' && IsO(t[1]) && IsN(t[2]) && t[3] == '"'
    ensures Lower(t) == "\"on\""
  {
    var l := Lower(t);
    LowerCharIsO(t[1]);
    LowerCharIsN(t[2]);
    assert l[0] == '"' && l[1] == 'o' && l[2] == 'n' && l[3] == '"';
  }

  /** A payload matches exactly when its stripped form is `on` or `"on"` in
      any mix of letter cases; the inside of the quotes is compared exactly. */
  lemma MatchesIffToken(payload: string)
    ensures Matches(payload) <==> IsTriggerToken(Strip(payload))
  {
    LowerIsOn(Strip(payload));
    LowerIsQuotedOn(Strip(payload));
  }

  /** Matching ignores letter case. */
  lemma MatchesIgnoresCase(payload: string)
    ensures Matches(Lower(payload)) == Matches(payload)
  {
    StripLower(payload);
    LowerIdempotent(Strip(payload));
  }

  /** Matching ignores whitespace around the payload. */
  lemma MatchesIgnoresPadding(a: string, payload: string, b: string)
    requires AllIn(a, WHITESPACE) && AllIn(b, WHITESPACE)
    ensures Matches(a + payload + b) == Matches(payload)
  {
    StripPadded(a, payload, b, WHITESPACE);
  }

  /** For a payload without outer whitespace the test is on the payload
      itself. */
  lemma TrimmedMatches(t: string)
    requires Trimmed(t, WHITESPACE)
    ensures Matches(t) <==> IsTriggerToken(t)
  {
    StripUnique([], t, [], WHITESPACE);
    assert [] + t + [] == t;
    MatchesIffToken(t);
  }

  /** `on` matches in lower case, ... */
  lemma AcceptsLowerCase()
    ensures Matches("on")
  {
    TrimmedMatches("on");
  }

  /** ... and in upper and mixed case, though `On` is not a trigger value. */
  lemma AcceptsOtherCases()
    ensures Matches("ON") && Matches("On")
  {
    TrimmedMatches("ON");
    TrimmedMatches("On");
  }

  /** `"on"` with the quotes matches in every letter case. */
  lemma AcceptsQuotedOn()
    ensures Matches("\"on\"") && Matches("\"ON\"")
  {
    TrimmedMatches("\"on\"");
    TrimmedMatches("\"ON\"");
  }

  /** Outer whitespace of any kind is ignored. */
  lemma AcceptsPaddedOn()
    ensures Matches("  on \n")
  {
    assert "  " + "on" + " \n" == "  on \n";
    var a, b := "  ", " \n";
    assert AllIn(a, WHITESPACE) && AllIn(b, WHITESPACE);
    MatchesIgnoresPadding(a, "on", b);
    AcceptsLowerCase();
  }

  /** Other words, the empty payload and a longer word do not match. */
  lemma RejectsOff()
    ensures !Matches("off")
  {
    TrimmedMatches("off");
  }

  lemma RejectsEmpty()
    ensures !Matches("")
  {
    TrimmedMatches("");
  }

  lemma RejectsLongerWord()
    ensures !Matches("onn")
  {
    TrimmedMatches("onn");
  }

  /** Whitespace inside the quotes is not ignored. */
  lemma RejectsInnerSpace()
    ensures !Matches("\" on \"")
  {
    TrimmedMatches("\" on \"");
  }
}
