/** Splitting a column list at its top-level commas. */
module SqlSplit {

  datatype Option<+T> = None | Some(value: T)

  predicate IsSpace(c: char) {
    var k := c as int;
    9 <= k <= 13 || 28 <= k <= 32 || k == 0x85 || k == 0xA0 || k == 0x1680 || 0x2000 <= k <= 0x200A
    || k == 0x2028 || k == 0x2029 || k == 0x202F || k == 0x205F || k == 0x3000
  }

  function Strip(s: string): string
    decreases |s|
  {
    if s != "" && IsSpace(s[0]) then Strip(s[1..])
    else if s != "" && IsSpace(s[|s| - 1]) then Strip(s[..|s| - 1])
    else s
  }

  // ---------------------------------------------------------------- where a comma counts

  predicate IsQuote(c: char) { c == '\'' || c == '"' }

  datatype Mode = Mode(quote: Option<char>, depth: int)

  const OUTSIDE := Mode(None, 0)

  /** Quotes toggle; parentheses count outside quotes.  A doubled quote closes and reopens at once. */
  function After(m: Mode, c: char): Mode {
    match m.quote
    case Some(q) => if c == q then m.(quote := None) else m
    case None =>
      if IsQuote(c) then m.(quote := Some(c))
      else if c == '(' then m.(depth := m.depth + 1)
      else if c == ')' then m.(depth := m.depth - 1)
      else m
  }

  function ModeAt(s: string, i: nat): Mode
    requires i <= |s|
  {
    if i == 0 then OUTSIDE else After(ModeAt(s, i - 1), s[i - 1])
  }

  /** An unquoted comma outside all parentheses. */
  predicate IsCut(s: string, i: nat)
    requires i < |s|
  {
    s[i] == ',' && ModeAt(s, i) == OUTSIDE
  }

  /** The pieces that end before i, and where the open one starts. */
  function Pieces(s: string, i: nat): seq<string>
    requires i <= |s|
  {
    if i == 0 then []
    else if IsCut(s, i - 1) then Pieces(s, i - 1) + [s[Start(s, i - 1)..i - 1]]
    else Pieces(s, i - 1)
  }

  function Start(s: string, i: nat): (r: nat)
    requires i <= |s|
    ensures r <= i
  {
    if i == 0 then 0 else if IsCut(s, i - 1) then i else Start(s, i - 1)
  }

  function Stripped(ps: seq<string>): seq<string> { seq(|ps|, i requires 0 <= i < |ps| => Strip(ps[i])) }

  function Split(s: string): seq<string> {
    var tail := Strip(s[Start(s, |s|)..]);
    Stripped(Pieces(s, |s|)) + (if tail != "" then [tail] else [])
  }

  /** The scanner: a doubled quote is skipped as a pair, every other character is taken alone. */
  method SplitSqlItems(body: string) returns (items: seq<string>)
    ensures items == Split(body)
  {
    items := [];
    var start, depth, index := 0, 0, 0;
    var quote: Option<char> := None;
    while index < |body|
      invariant index <= |body| && start == Start(body, index)
      invariant ModeAt(body, index) == Mode(quote, depth) && items == Stripped(Pieces(body, index))
    {
      var c := body[index];
      if quote.Some? {
        if c == quote.value {
          if index + 1 < |body| && body[index + 1] == quote.value {
            QuoteIsQuote(body, index);
            assert !IsCut(body, index) && !IsCut(body, index + 1);
            index := index + 1;
          } else {
            quote := None;
          }
        }
      } else if IsQuote(c) {
        quote := Some(c);
      } else if c == '(' {
        depth := depth + 1;
      } else if c == ')' {
        depth := depth - 1;
      } else if c == ',' && depth == 0 {
        items := items + [Strip(body[start..index])];
        start := index + 1;
      }
      index := index + 1;
    }
    var tail := Strip(body[start..]);
    if tail != "" {
      items := items + [tail];
    }
  }

  /** Only a quote character can be the open quote. */
  lemma {:induction false} QuoteIsQuote(s: string, i: nat)
    requires i <= |s|
    ensures ModeAt(s, i).quote.Some? ==> IsQuote(ModeAt(s, i).quote.value)
  {
    if i > 0 {
      QuoteIsQuote(s, i - 1);
    }
  }

  // ---------------------------------------------------------------- nothing is lost

  function Join(ps: seq<string>): string {
    if |ps| == 0 then "" else if |ps| == 1 then ps[0] else Join(ps[..|ps| - 1]) + "," + ps[|ps| - 1]
  }

  /** Join without the last separator being special: every piece is followed by its comma. */
  function Ended(ps: seq<string>): string {
    if ps == [] then "" else Ended(ps[..|ps| - 1]) + ps[|ps| - 1] + ","
  }

  lemma {:induction false} JoinEnded(ps: seq<string>, last: string)
    ensures Join(ps + [last]) == Ended(ps) + last
  {
    if ps == [] {
      assert [last][..0] == [];
    } else {
      var n := |ps| - 1;
      assert ps == ps[..n] + [ps[n]];
      JoinEnded(ps[..n], ps[n]);
      assert (ps + [last])[..|ps|] == ps;
    }
  }

  lemma {:induction false} PrefixOfPieces(s: string, i: nat)
    requires i <= |s|
    ensures Ended(Pieces(s, i)) + s[Start(s, i)..i] == s[..i]
  {
    hide IsCut, Ended;
    if i == 0 {
      NothingEnded();
    } else {
      PrefixOfPieces(s, i - 1);
      var ps := Pieces(s, i - 1);
      assert s[..i] == s[..i - 1] + [s[i - 1]];
      if IsCut(s, i - 1) {
        EndedMore(ps, s[Start(s, i - 1)..i - 1]);
        CutIsComma(s, i - 1);
      } else {
        assert s[Start(s, i)..i] == s[Start(s, i)..i - 1] + [s[i - 1]];
        assert Ended(ps) + s[Start(s, i)..i] == Ended(ps) + s[Start(s, i)..i - 1] + [s[i - 1]];
      }
    }
  }

  lemma NothingEnded()
    ensures Ended([]) == ""
  {
  }

  lemma EndedMore(ps: seq<string>, p: string)
    ensures Ended(ps + [p]) == Ended(ps) + p + ","
  {
    assert (ps + [p])[..|ps|] == ps;
  }

  lemma CutIsComma(s: string, i: nat)
    requires i < |s| && IsCut(s, i)
    ensures s[i] == ','
  {
  }

  /** Joining the raw pieces gives back the text: only separating commas are removed. */
  lemma PiecesRejoin(s: string)
    ensures Join(Pieces(s, |s|) + [s[Start(s, |s|)..]]) == s
  {
    PrefixOfPieces(s, |s|);
    JoinEnded(Pieces(s, |s|), s[Start(s, |s|)..]);
    hide *;
    assert s[..|s|] == s && s[Start(s, |s|)..|s|] == s[Start(s, |s|)..];
  }

  // ---------------------------------------------------------------- splitting undoes joining

  predicate NoCut(p: string) { forall i :: 0 <= i < |p| ==> !IsCut(p, i) }

  /** Quotes closed, parentheses balanced, no top-level comma. */
  predicate SelfContained(p: string) { NoCut(p) && ModeAt(p, |p|) == OUTSIDE }

  lemma {:induction false} ModePrefix(s: string, t: string, i: nat)
    requires i <= |s| <= |t| && t[..|s|] == s
    ensures ModeAt(t, i) == ModeAt(s, i)
  {
    if i > 0 {
      ModePrefix(s, t, i - 1);
      assert s[i - 1] == t[i - 1];
    }
  }

  lemma {:induction false} ModeSuffix(s: string, p: string, i: nat)
    requires ModeAt(s, |s|) == OUTSIDE && i <= |p|
    ensures ModeAt(s + p, |s| + i) == ModeAt(p, i)
  {
    if i == 0 {
      ModePrefix(s, s + p, |s|);
    } else {
      ModeSuffix(s, p, i - 1);
    }
  }

  lemma {:induction false} PiecesPrefix(s: string, t: string, i: nat)
    requires i <= |s| <= |t| && t[..|s|] == s
    ensures Pieces(t, i) == Pieces(s, i) && Start(t, i) == Start(s, i)
  {
    if i > 0 {
      PiecesPrefix(s, t, i - 1);
      ModePrefix(s, t, i - 1);
      assert s[i - 1] == t[i - 1];
      assert s[Start(s, i - 1)..i - 1] == t[Start(s, i - 1)..i - 1];
    }
  }

  lemma {:induction false} NoMorePieces(s: string, p: string, i: nat)
    requires ModeAt(s, |s|) == OUTSIDE && NoCut(p) && i <= |p|
    ensures Pieces(s + p, |s| + i) == Pieces(s, |s|) && Start(s + p, |s| + i) == Start(s, |s|)
  {
    if i == 0 {
      PiecesPrefix(s, s + p, |s|);
    } else {
      NoMorePieces(s, p, i - 1);
      ModeSuffix(s, p, i - 1);
      assert !IsCut(p, i - 1);
    }
  }

  /** A comma after a closed text is a cut and starts the next piece. */
  lemma CommaCuts(q: string)
    requires ModeAt(q, |q|) == OUTSIDE
    ensures var t := q + ",";
            ModeAt(t, |t|) == OUTSIDE && Pieces(t, |t|) == Pieces(q, |q|) + [q[Start(q, |q|)..]] && Start(t, |t|) == |t|
  {
    var t := q + ",";
    assert t[..|q|] == q;
    ModePrefix(q, t, |q|);
    PiecesPrefix(q, t, |q|);
    hide Pieces, Start, ModeAt;
    assert t[|q|] == ',' && IsCut(t, |q|);
    CutEnds(t, |q|);
    assert t[Start(q, |q|)..|q|] == q[Start(q, |q|)..];
  }

  lemma CutEnds(t: string, n: nat)
    requires |t| == n + 1 && IsCut(t, n)
    ensures ModeAt(t, |t|) == OUTSIDE && Pieces(t, |t|) == Pieces(t, n) + [t[Start(t, n)..n]] && Start(t, |t|) == |t|
  {
  }

  lemma EndedOne(s: string, p: string)
    requires ModeAt(s, |s|) == OUTSIDE && Start(s, |s|) == |s| && SelfContained(p)
    ensures var t := s + p + ",";
            ModeAt(t, |t|) == OUTSIDE && Pieces(t, |t|) == Pieces(s, |s|) + [p] && Start(t, |t|) == |t|
  {
    NoMorePieces(s, p, |p|);
    ModeSuffix(s, p, |p|);
    hide Pieces, Start, ModeAt, NoCut;
    assert |s + p| == |s| + |p|;
    CommaCuts(s + p);
    assert (s + p)[|s|..] == p;
  }

  lemma {:induction false} EndedPieces(ps: seq<string>)
    requires forall p :: p in ps ==> SelfContained(p)
    ensures var s := Ended(ps);
            ModeAt(s, |s|) == OUTSIDE && Pieces(s, |s|) == ps && Start(s, |s|) == |s|
  {
    if ps != [] {
      var n := |ps| - 1;
      hide SelfContained;
      assert ps[n] in ps;
      EndedPieces(ps[..n]);
      hide Pieces, Start, ModeAt;
      EndedOne(Ended(ps[..n]), ps[n]);
      assert ps == ps[..n] + [ps[n]];
    }
  }

  /** Splitting a comma-joined list of self-contained pieces strips the pieces and returns them in order, with the last
      one dropped when it is blank; the last piece may even leave a quote or a parenthesis open. */
  lemma SplitJoin(ps: seq<string>, last: string)
    requires (forall p :: p in ps ==> SelfContained(p)) && NoCut(last)
    ensures Split(Join(ps + [last])) == Stripped(ps) + (if Strip(last) != "" then [Strip(last)] else [])
  {
    hide ModeAt, Pieces, NoCut, SelfContained, Strip;
    JoinEnded(ps, last);
    EndedPieces(ps);
    var s := Ended(ps);
    NoMorePieces(s, last, |last|);
    assert (s + last)[|s|..] == last;
  }

  /** Trimmed, non-blank, self-contained items survive joining and splitting unchanged. */
  lemma RoundTrip(items: seq<string>)
    requires forall p :: p in items ==> SelfContained(p) && p != "" && Strip(p) == p
    ensures Split(Join(items)) == items
  {
    if items == [] {
      assert Split("") == [];
    } else {
      var n := |items| - 1;
      assert items == items[..n] + [items[n]];
      assert items[n] in items;
      SplitJoin(items[..n], items[n]);
      assert Stripped(items[..n]) == items[..n];
    }
  }

  /** The raw pieces of any text are self-contained, so splitting and joining describe each other. */
  lemma {:induction false} PiecesAreSelfContained(s: string, i: nat)
    requires i <= |s|
    ensures forall p :: p in Pieces(s, i) ==> SelfContained(p)
    ensures ModeAt(s, Start(s, i)) == OUTSIDE && NoCut(s[Start(s, i)..i])
            && ModeAt(s[Start(s, i)..i], i - Start(s, i)) == ModeAt(s, i)
  {
    if i > 0 {
      PiecesAreSelfContained(s, i - 1);
      var k := Start(s, i - 1);
      if !IsCut(s, i - 1) {
        var p, q := s[k..i - 1], s[k..i];
        assert q[..|p|] == p;
        forall j | 0 <= j <= |p| ensures ModeAt(q, j) == ModeAt(p, j) {
          ModePrefix(p, q, j);
        }
        forall j | 0 <= j < |q| ensures !IsCut(q, j) {
          assert j < |p| ==> !IsCut(p, j);
        }
      }
    }
  }

  /** Every text is such a list, so the law above describes the splitter on all inputs. */
  lemma SplitIsOfPieces(s: string)
    ensures exists ps: seq<string>, last: string ::
              s == Join(ps + [last]) && (forall p :: p in ps ==> SelfContained(p)) && NoCut(last)
              && Split(s) == Stripped(ps) + (if Strip(last) != "" then [Strip(last)] else [])
  {
    PiecesRejoin(s);
    PiecesAreSelfContained(s, |s|);
    var ps, last := Pieces(s, |s|), s[Start(s, |s|)..];
    assert last == s[Start(s, |s|)..|s|];
    assert s == Join(ps + [last]);
  }
}
