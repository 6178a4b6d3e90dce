/** Row-per-line drafts: printing a list as lines and reading it back with a row parser. */
module DraftRows {
  import opened Text

  /** A parsed row and the number of the line it came from (regenerated ids carry that number). */
  datatype Numbered<+T> = Numbered(line: nat, item: T)

  predicate NoNewline(s: string) { '\n' !in s }

  function DropNewlines(s: string): (r: string)
    ensures |r| <= |s|
  {
    if s != "" && s[0] == '\n' then DropNewlines(s[1..]) else s
  }

  /** `s.split(/\n+/)`. */
  function SplitRuns(s: string): (r: seq<string>)
    ensures r != []
    decreases |s|
  {
    if s == "" then [""]
    else if s[0] == '\n' then [""] + SplitRuns(DropNewlines(s[1..]))
    else var rest := SplitRuns(s[1..]); [[s[0]] + rest[0]] + rest[1..]
  }

  function Lines<T>(pr: T -> string, xs: seq<T>): seq<string> {
    seq(|xs|, i requires 0 <= i < |xs| => pr(xs[i]))
  }

  /** `xs.map(pr).join("\n")`. */
  function Printed<T>(pr: T -> string, xs: seq<T>): string {
    if xs == [] then ""
    else if |xs| == 1 then pr(xs[0])
    else pr(xs[0]) + "\n" + Printed(pr, xs[1..])
  }

  /** Rows the parser `f` keeps, with their line numbers from `n`. */
  function Collect<T>(f: string -> Option<T>, lines: seq<string>, n: nat): seq<Numbered<T>> {
    if lines == [] then []
    else
      var rest := Collect(f, lines[1..], n + 1);
      match f(lines[0])
      case None => rest
      case Some(v) => [Numbered(n, v)] + rest
  }

  /** `rows.slice(0, limit)`, or all rows where the parser has no limit. */
  function Limited<T>(rows: seq<T>, limit: Option<nat>): seq<T> {
    if limit.Some? && |rows| > limit.value then rows[..limit.value] else rows
  }

  function Parse<T>(f: string -> Option<T>, text: string, limit: Option<nat>): seq<Numbered<T>> {
    Limited(Collect(f, SplitRuns(text), 1), limit)
  }

  function Items<T>(rows: seq<Numbered<T>>): seq<T> {
    seq(|rows|, i requires 0 <= i < |rows| => rows[i].item)
  }

  predicate Within(n: nat, limit: Option<nat>) { limit.Some? ==> n <= limit.value }

  lemma {:induction false} SplitRunsNoNewline(s: string)
    ensures forall i :: 0 <= i < |SplitRuns(s)| ==> NoNewline(SplitRuns(s)[i])
    decreases |s|
  {
    if s == "" {
    } else if s[0] == '\n' {
      SplitRunsNoNewline(DropNewlines(s[1..]));
    } else {
      SplitRunsNoNewline(s[1..]);
    }
  }

  lemma {:induction false} SplitRunsFirst(a: string, b: string)
    requires NoNewline(a) && b != "" && b[0] != '\n'
    ensures SplitRuns(a) == [a]
    ensures SplitRuns(a + "\n" + b) == [a] + SplitRuns(b)
  {
    var s := a + "\n" + b;
    if a == "" {
      assert s[1..] == b;
    } else {
      assert a[0] in a && NoNewline(a[1..]) by { assert forall c :: c in a[1..] ==> c in a; }
      SplitRunsFirst(a[1..], b);
      assert s[0] == a[0] && s[1..] == a[1..] + "\n" + b;
      var rest := SplitRuns(b);
      assert ([a[1..]] + rest)[0] == a[1..] && ([a[1..]] + rest)[1..] == rest;
      assert [a[0]] + a[1..] == a;
    }
  }

  /** Nonempty one-line rows come apart exactly where they were joined. */
  lemma {:induction false} SplitPrinted<T>(pr: T -> string, xs: seq<T>)
    requires xs != []
    requires forall i :: 0 <= i < |xs| ==> NoNewline(pr(xs[i])) && pr(xs[i]) != ""
    ensures SplitRuns(Printed(pr, xs)) == Lines(pr, xs)
    ensures Printed(pr, xs) != "" && Printed(pr, xs)[0] != '\n'
  {
    var head := pr(xs[0]);
    assert head[0] in head;
    if |xs| == 1 {
      SplitRunsFirst(head, head);
    } else {
      SplitPrinted(pr, xs[1..]);
      SplitRunsFirst(head, Printed(pr, xs[1..]));
    }
  }

  lemma {:induction false} CollectFits<T>(f: string -> Option<T>, lines: seq<string>, n: nat)
    ensures |Collect(f, lines, n)| <= |lines|
  {
    if lines != [] { CollectFits(f, lines[1..], n + 1); }
  }

  /** Every kept row satisfies what `f` guarantees of the rows it keeps. */
  lemma {:induction false} CollectRange<T>(f: string -> Option<T>, p: T -> bool, lines: seq<string>, n: nat)
    requires forall l :: NoNewline(l) && f(l).Some? ==> p(f(l).value)
    requires forall i :: 0 <= i < |lines| ==> NoNewline(lines[i])
    ensures forall k :: 0 <= k < |Collect(f, lines, n)| ==> p(Collect(f, lines, n)[k].item)
  {
    if lines != [] { CollectRange(f, p, lines[1..], n + 1); }
  }

  /** A kept row is what the parser makes of the line it carries the number of. */
  lemma {:induction false} CollectLines<T>(f: string -> Option<T>, lines: seq<string>, n: nat)
    ensures forall k :: 0 <= k < |Collect(f, lines, n)| ==>
              var row := Collect(f, lines, n)[k];
              n <= row.line < n + |lines| && f(lines[row.line - n]) == Some(row.item)
  {
    if lines != [] { CollectLines(f, lines[1..], n + 1); }
  }

  predicate InLineOrder<T>(rows: seq<Numbered<T>>) { forall j, k :: 0 <= j < k < |rows| ==> rows[j].line < rows[k].line }

  lemma {:induction false} CollectInOrder<T>(f: string -> Option<T>, lines: seq<string>, n: nat)
    ensures InLineOrder(Collect(f, lines, n))
  {
    if lines != [] {
      CollectInOrder(f, lines[1..], n + 1);
      CollectLines(f, lines[1..], n + 1);
    }
  }

  lemma {:induction false} CollectHas<T>(f: string -> Option<T>, lines: seq<string>, n: nat, i: nat)
    requires i < |lines| && f(lines[i]).Some?
    ensures Numbered(n + i, f(lines[i]).value) in Collect(f, lines, n)
  {
    if i > 0 {
      CollectHas(f, lines[1..], n + 1, i - 1);
      assert (n + 1) + (i - 1) == n + i && lines[1..][i - 1] == lines[i];
    }
  }

  lemma LimitCutsLast<T>(all: seq<Numbered<T>>, limit: Option<nat>, x: Numbered<T>)
    requires InLineOrder(all) && x in all
    ensures var rows := Limited(all, limit);
            x in rows || (limit == Some(|rows|) && forall k :: 0 <= k < |rows| ==> rows[k].line < x.line)
  {
    var rows := Limited(all, limit);
    var j :| 0 <= j < |all| && all[j] == x;
    assert j < |rows| ==> rows[j] == x;
  }

  /**
   A parse keeps the first rows that the parser accepts, in the order of their lines and each with the number of its line:
   a line that it accepts is left out only when as many rows as the limit allows come before it.
   */
  lemma ParseKeepsFirst<T>(f: string -> Option<T>, text: string, limit: Option<nat>, i: nat)
    requires i < |SplitRuns(text)| && f(SplitRuns(text)[i]).Some?
    ensures var rows := Parse(f, text, limit);
            && InLineOrder(rows)
            && (Numbered(1 + i, f(SplitRuns(text)[i]).value) in rows
                || (limit == Some(|rows|) && forall k :: 0 <= k < |rows| ==> rows[k].line < 1 + i))
  {
    var lines := SplitRuns(text);
    CollectInOrder(f, lines, 1);
    CollectHas(f, lines, 1, i);
    LimitCutsLast(Collect(f, lines, 1), limit, Numbered(1 + i, f(lines[i]).value));
  }

  function Breaks(n: nat): string { seq(n, _ => '\n') }

  /** Lines as they are typed, with any number of line breaks after each but the last. */
  function TypedLines(lines: seq<string>, breaks: seq<nat>): string
    requires lines != [] && |breaks| == |lines| - 1
  {
    if |lines| == 1 then lines[0] else lines[0] + Breaks(breaks[0]) + TypedLines(lines[1..], breaks[1..])
  }

  lemma {:induction false} BreaksDropped(n: nat, s: string)
    requires s == "" || s[0] != '\n'
    ensures DropNewlines(Breaks(n) + s) == s
  {
    if n > 0 {
      BreaksDropped(n - 1, s);
      assert (Breaks(n) + s)[1..] == Breaks(n - 1) + s;
    } else {
      assert Breaks(0) + s == s;
    }
  }

  lemma {:induction false} SplitLine(a: string, n: nat, b: string)
    requires NoNewline(a) && n > 0 && (b == "" || b[0] != '\n')
    ensures SplitRuns(a + Breaks(n) + b) == [a] + SplitRuns(b)
  {
    var s := a + Breaks(n) + b;
    if a == "" {
      assert s[1..] == Breaks(n - 1) + b;
      BreaksDropped(n - 1, b);
    } else {
      assert a[0] in a && NoNewline(a[1..]) by { assert forall c :: c in a[1..] ==> c in a; }
      SplitLine(a[1..], n, b);
      assert s[0] == a[0] && s[1..] == a[1..] + Breaks(n) + b;
      assert [a[0]] + a[1..] == a;
    }
  }

  /** Any number of line breaks is one boundary: the typed lines come apart exactly there. */
  lemma {:induction false} TypedLinesSplit(lines: seq<string>, breaks: seq<nat>)
    requires lines != [] && |breaks| == |lines| - 1
    requires forall i :: 0 <= i < |lines| ==> NoNewline(lines[i]) && (0 < i < |lines| - 1 ==> lines[i] != "")
    requires forall i :: 0 <= i < |breaks| ==> breaks[i] > 0
    ensures SplitRuns(TypedLines(lines, breaks)) == lines
  {
    if |lines| == 1 {
      SplitRunsFirst(lines[0], "-");
    } else {
      var rest := TypedLines(lines[1..], breaks[1..]);
      TypedLinesSplit(lines[1..], breaks[1..]);
      assert rest == "" || rest[0] != '\n' by {
        if rest != "" && lines[1] != "" { assert rest[0] == lines[1][0] && lines[1][0] in lines[1]; }
      }
      SplitLine(lines[0], breaks[0], rest);
    }
  }

  /** The typed line that a parsed row came from. */
  function LineOf<T>(text: string, row: Numbered<T>): string {
    var lines := SplitRuns(text);
    if 1 <= row.line <= |lines| then lines[row.line - 1] else ""
  }

  lemma ParsedLines<T>(f: string -> Option<T>, text: string, limit: Option<nat>)
    ensures forall k :: 0 <= k < |Parse(f, text, limit)| ==>
              var row := Parse(f, text, limit)[k];
              1 <= row.line <= |SplitRuns(text)| && f(LineOf(text, row)) == Some(row.item)
  {
    CollectLines(f, SplitRuns(text), 1);
  }

  lemma ParseRange<T>(f: string -> Option<T>, p: T -> bool, text: string, limit: Option<nat>)
    requires forall l :: NoNewline(l) && f(l).Some? ==> p(f(l).value)
    ensures forall k :: 0 <= k < |Parse(f, text, limit)| ==> p(Items(Parse(f, text, limit))[k])
    ensures Within(|Parse(f, text, limit)|, limit)
  {
    SplitRunsNoNewline(text);
    CollectRange(f, p, SplitRuns(text), 1);
  }

  /** All rows come back if and only if each one does, and then their lines are numbered in order. */
  lemma {:induction false} CollectRestores<T>(f: string -> Option<T>, pr: T -> string, xs: seq<T>, n: nat)
    ensures var rows := Collect(f, Lines(pr, xs), n);
            Items(rows) == xs <==> forall i :: 0 <= i < |xs| ==> f(pr(xs[i])) == Some(xs[i])
    ensures var rows := Collect(f, Lines(pr, xs), n);
            Items(rows) == xs ==> forall i :: 0 <= i < |rows| ==> rows[i].line == n + i
  {
    if xs != [] {
      var lines := Lines(pr, xs);
      assert lines[1..] == Lines(pr, xs[1..]);
      CollectRestores(f, pr, xs[1..], n + 1);
      CollectFits(f, lines[1..], n + 1);
      var rest := Collect(f, lines[1..], n + 1);
      var rows := Collect(f, lines, n);
      if f(lines[0]).Some? {
        assert Items(rows) == [f(lines[0]).value] + Items(rest);
        if Items(rows) == xs {
          assert Items(rest) == xs[1..];
        }
        if forall i :: 0 <= i < |xs| ==> f(pr(xs[i])) == Some(xs[i]) {
          forall i | 0 <= i < |xs[1..]| ensures f(pr(xs[1..][i])) == Some(xs[1..][i]) {
            assert xs[1..][i] == xs[i + 1];
          }
          assert xs == [xs[0]] + xs[1..];
        }
      } else {
        assert |Items(rows)| < |xs|;
        assert f(pr(xs[0])) != Some(xs[0]);
      }
    }
  }

  /**
   * Printing and parsing undo each other exactly on lists within the limit whose rows are all clean, given that
   * the parser's rows satisfy `p`, rows with `p` print as nonempty single lines and survive alone exactly when
   * clean, and empty lines are dropped.
   */
  lemma RoundTripIff<T(!new)>(f: string -> Option<T>, pr: T -> string, p: T -> bool, clean: T -> bool,
                              xs: seq<T>, limit: Option<nat>)
    requires forall l :: NoNewline(l) && f(l).Some? ==> p(f(l).value)
    requires forall x :: p(x) ==> NoNewline(pr(x)) && pr(x) != ""
    requires forall x :: clean(x) <==> p(x) && f(pr(x)) == Some(x)
    requires f("").None?
    ensures var rows := Parse(f, Printed(pr, xs), limit);
            Items(rows) == xs <==> Within(|xs|, limit) && forall i :: 0 <= i < |xs| ==> clean(xs[i])
    ensures var rows := Parse(f, Printed(pr, xs), limit);
            Items(rows) == xs ==> forall i :: 0 <= i < |rows| ==> rows[i].line == i + 1
  {
    var text := Printed(pr, xs);
    var rows := Parse(f, text, limit);
    ParseRange(f, p, text, limit);
    if xs == [] {
      assert SplitRuns(text) == [""];
      assert Collect(f, [""], 1) == Collect(f, [""][1..], 2) == [];
    } else if forall i :: 0 <= i < |xs| ==> p(xs[i]) {
      SplitPrinted(pr, xs);
      CollectRestores(f, pr, xs, 1);
      var all := Collect(f, Lines(pr, xs), 1);
      CollectFits(f, Lines(pr, xs), 1);
      if Items(rows) == xs {
        assert |rows| == |xs| <= |all| <= |xs|;
        assert rows == all;
      }
      if Within(|xs|, limit) && forall i :: 0 <= i < |xs| ==> f(pr(xs[i])) == Some(xs[i]) {
        assert |Items(all)| == |xs|;
        assert rows == all;
      }
    } else {
      assert Items(rows) != xs;
    }
  }

  /**
   * Text from anywhere: what was read from it reads back the same once printed, exactly when every row is clean.
   */
  lemma SavesAreStableIff<T(!new)>(f: string -> Option<T>, pr: T -> string, p: T -> bool, clean: T -> bool,
                                   text: string, limit: Option<nat>)
    requires forall l :: NoNewline(l) && f(l).Some? ==> p(f(l).value)
    requires forall x :: p(x) ==> NoNewline(pr(x)) && pr(x) != ""
    requires forall x :: clean(x) <==> p(x) && f(pr(x)) == Some(x)
    requires f("").None?
    ensures var xs := Items(Parse(f, text, limit));
            Items(Parse(f, Printed(pr, xs), limit)) == xs <==> forall i :: 0 <= i < |xs| ==> clean(xs[i])
    ensures var xs := Items(Parse(f, text, limit)); forall i :: 0 <= i < |xs| ==> p(xs[i])
  {
    ParseRange(f, p, text, limit);
    RoundTripIff(f, pr, p, clean, Items(Parse(f, text, limit)), limit);
  }
}
