/** A command line carried between two binaries in one environment variable: `joinAuthproxyExec` in the
    sandbox runtime, `splitArgv` in the auth proxy. */
module Argv {
  import opened Strings

  const QUOTE := "\""
  const SPACE := " "

  /** An argument without its double quotes. */
  function Stripped(a: string): string {
    if a == "" then ""
    else Stripped(a[..|a| - 1]) + if a[|a| - 1] == '\"' then "" else [a[|a| - 1]]
  }

  /** Arguments with a space are put in quotes. */
  function Part(a: string): string {
    if ' ' in Stripped(a) then QUOTE + Stripped(a) + QUOTE else Stripped(a)
  }

  function Parts(argv: seq<string>): (p: seq<string>)
    ensures |p| == |argv|
  {
    if argv == [] then [] else Parts(argv[..|argv| - 1]) + [Part(argv[|argv| - 1])]
  }

  function JoinSpaced(parts: seq<string>): string {
    if parts == [] then ""
    else if |parts| == 1 then parts[0]
    else JoinSpaced(parts[..|parts| - 1]) + SPACE + parts[|parts| - 1]
  }

  /** What the round trip is for: quotes gone, empty arguments gone, everything else in order. */
  function Kept(argv: seq<string>): seq<string> {
    if argv == [] then []
    else
      var last := Stripped(argv[|argv| - 1]);
      Kept(argv[..|argv| - 1]) + if last == "" then [] else [last]
  }

  lemma {:induction false} StrippedSplit(a: string, b: string)
    ensures Stripped(a + b) == Stripped(a) + Stripped(b)
  {
    if b == "" {
      assert a + b == a;
    } else {
      var n := |b| - 1;
      assert (a + b)[..|a| + n] == a + b[..n];
      StrippedSplit(a, b[..n]);
    }
  }

  lemma {:induction false} Unquoted(a: string)
    requires '\"' !in a
    ensures Stripped(a) == a
  {
    if a != "" {
      var n := |a| - 1;
      assert a == a[..n] + [a[n]] && a[n] in a;
      Unquoted(a[..n]);
    }
  }

  lemma BeforeQuote(a: string, end: nat)
    requires end <= |a| && forall j: nat :: j < end ==> !OccursAt(a, QUOTE, j)
    ensures '\"' !in a[..end] && Stripped(a[..end]) == a[..end]
  {
    forall j: nat | j < end
      ensures a[j] != '\"'
    {
      assert !OccursAt(a, QUOTE, j) && a[j..j + 1] == [a[j]];
    }
    Unquoted(a[..end]);
  }

  lemma OneQuote()
    ensures Stripped(QUOTE) == ""
  {
    assert QUOTE[..0] == "";
  }

  lemma FirstQuoteGone(before: string, rest: string)
    requires Stripped(before) == before
    ensures Stripped(before + QUOTE + rest) == before + Stripped(rest)
  {
    OneQuote();
    hide Stripped;
    StrippedSplit(before + QUOTE, rest);
    StrippedSplit(before, QUOTE);
    assert before + "" == before;
  }

  /** Go's replacement of every quote by nothing. */
  lemma {:induction false} StrippedIsReplaced(a: string)
    ensures ReplaceAll(a, QUOTE, "") == Stripped(a)
    decreases |a|
  {
    hide Stripped;
    var i := Index(a, QUOTE);
    if i < 0 {
      BeforeQuote(a, |a|);
      assert a[..|a|] == a;
    } else {
      var before, rest := a[..i], a[i + 1..];
      assert a == before + QUOTE + rest;
      StrippedIsReplaced(rest);
      BeforeQuote(a, i);
      FirstQuoteGone(before, rest);
      assert before + "" == before;
    }
  }

  lemma {:induction false} NoQuotesLeft(a: string)
    ensures '\"' !in Stripped(a)
  {
    if a != "" {
      NoQuotesLeft(a[..|a| - 1]);
    }
  }

  // ---- the two programs -------------------------------------------------------------------

  method JoinAuthproxyExec(argv: seq<string>) returns (s: string)
    ensures s == JoinSpaced(Parts(argv))
  {
    var parts := [];
    for i := 0 to |argv|
      invariant parts == Parts(argv[..i])
    {
      var a := ReplaceAll(argv[i], QUOTE, "");
      StrippedIsReplaced(argv[i]);
      if ' ' in a {
        a := QUOTE + a + QUOTE;
      }
      assert argv[..i + 1][..i] == argv[..i];
      parts := parts + [a];
    }
    assert argv[..|argv|] == argv;
    s := JoinSpaced(parts);
  }

  datatype Scan = Scan(out: seq<string>, cur: string, inQuote: bool)

  function Flushed(st: Scan): Scan {
    if st.cur != "" then st.(out := st.out + [st.cur], cur := "") else st
  }

  function Next(st: Scan, c: char): Scan {
    if c == '\"' then st.(inQuote := !st.inQuote)
    else if c == ' ' && !st.inQuote then Flushed(st)
    else st.(cur := st.cur + [c])
  }

  function Walk(st: Scan, s: string): Scan {
    if s == "" then st else Next(Walk(st, s[..|s| - 1]), s[|s| - 1])
  }

  const FRESH: Scan := Scan([], "", false)

  function Split(s: string): seq<string> {
    Flushed(Walk(FRESH, s)).out
  }

  method SplitArgv(s: string) returns (out: seq<string>)
    ensures out == Split(s)
  {
    out := [];
    var cur := "";
    var inQuote := false;
    for i := 0 to |s|
      invariant Scan(out, cur, inQuote) == Walk(FRESH, s[..i])
    {
      assert s[..i + 1][..i] == s[..i];
      var c := s[i];
      if c == '\"' {
        inQuote := !inQuote;
      } else if c == ' ' && !inQuote {
        if |cur| > 0 {
          out := out + [cur];
          cur := "";
        }
      } else {
        cur := cur + [c];
      }
    }
    assert s[..|s|] == s;
    if |cur| > 0 {
      out := out + [cur];
    }
  }

  // ---- the round trip ------------------------------------------------------------------------

  lemma {:induction false} WalkSplit(st: Scan, a: string, b: string)
    ensures Walk(st, a + b) == Walk(Walk(st, a), b)
  {
    if b == "" {
      assert a + b == a;
    } else {
      var n := |b| - 1;
      assert (a + b)[..|a| + n] == a + b[..n];
      WalkSplit(st, a, b[..n]);
    }
  }

  /** Characters that are not quotes are taken as they come inside quotes, and outside them if they are not
      spaces either. */
  lemma {:induction false} WalkPlain(st: Scan, s: string)
    requires '\"' !in s && (st.inQuote || ' ' !in s)
    ensures Walk(st, s) == st.(cur := st.cur + s)
  {
    if s == "" {
      assert st.cur + s == st.cur;
    } else {
      var n := |s| - 1;
      WalkPlain(st, s[..n]);
      assert s[n] in s && s == s[..n] + [s[n]];
    }
  }

  lemma WalkOne(st: Scan, c: char)
    ensures Walk(st, [c]) == Next(st, c)
  {
    assert [c][..0] == "";
  }

  lemma WalkPart(st: Scan, a: string)
    requires st.cur == "" && !st.inQuote
    ensures Walk(st, Part(a)) == st.(cur := Stripped(a))
  {
    NoQuotesLeft(a);
    var t := Stripped(a);
    if ' ' in t {
      assert QUOTE + t + QUOTE == QUOTE + (t + QUOTE);
      WalkSplit(st, QUOTE, t + QUOTE);
      WalkOne(st, '\"');
      var quoted := st.(inQuote := true);
      WalkSplit(quoted, t, QUOTE);
      WalkPlain(quoted, t);
      WalkOne(quoted.(cur := t), '\"');
    } else {
      WalkPlain(st, t);
    }
  }

  lemma {:induction false} WalkJoined(argv: seq<string>)
    requires argv != []
    ensures Walk(FRESH, JoinSpaced(Parts(argv))) == Scan(Kept(argv[..|argv| - 1]), Stripped(argv[|argv| - 1]), false)
  {
    var n := |argv| - 1;
    var parts := Parts(argv);
    assert parts[..n] == Parts(argv[..n]) && parts[n] == Part(argv[n]);
    if n == 0 {
      WalkPart(FRESH, argv[0]);
    } else {
      WalkJoined(argv[..n]);
      var before := JoinSpaced(Parts(argv[..n]));
      var st := Walk(FRESH, before);
      WalkSplit(FRESH, before + SPACE, parts[n]);
      WalkSplit(FRESH, before, SPACE);
      WalkOne(st, ' ');
      assert argv[..n][..n - 1] == argv[..n - 1];
      assert Flushed(st) == Scan(Kept(argv[..n]), "", false);
      WalkPart(Flushed(st), argv[n]);
    }
  }

  /** For every argument list: splitting what was joined gives the arguments without their quotes, the
      empty ones left out. */
  lemma RoundTrip(argv: seq<string>)
    ensures Split(JoinSpaced(Parts(argv))) == Kept(argv)
  {
    if argv != [] {
      WalkJoined(argv);
    }
  }

  lemma {:induction false} KeptHasNoQuotes(argv: seq<string>)
    ensures |Kept(argv)| <= |argv|
    ensures forall a :: a in Kept(argv) ==> a != "" && '\"' !in a
  {
    if argv != [] {
      KeptHasNoQuotes(argv[..|argv| - 1]);
      NoQuotesLeft(argv[|argv| - 1]);
    }
  }

  /** No empty argument and no quote. */
  predicate Plain(argv: seq<string>) {
    forall i :: 0 <= i < |argv| ==> argv[i] != "" && '\"' !in argv[i]
  }

  /** So the list comes back as it was exactly when it has no empty argument and no quote. */
  lemma RoundTripIsIdentity(argv: seq<string>)
    ensures Split(JoinSpaced(Parts(argv))) == argv <==> Plain(argv)
  {
    RoundTrip(argv);
    KeptHasNoQuotes(argv);
    if Plain(argv) {
      PlainKept(argv);
    } else if Kept(argv) == argv {
      assert forall i :: 0 <= i < |argv| ==> argv[i] in Kept(argv);
    }
  }

  lemma {:induction false} PlainKept(argv: seq<string>)
    requires Plain(argv)
    ensures Kept(argv) == argv
  {
    hide Stripped;
    if argv != [] {
      var n := |argv| - 1;
      PlainKept(argv[..n]);
      Unquoted(argv[n]);
      assert argv == argv[..n] + [argv[n]];
    }
  }
}
