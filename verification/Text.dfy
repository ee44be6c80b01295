/** Whitespace-collapsing text algebra: `" ".join(s.split())` and case folding, for any notion
    of separator character. */
module Text {
  import opened Seqs

  /** `s.split()`: the maximal separator-free runs of `s`. */
  function Words(s: string, sep: char -> bool): (w: seq<string>)
    ensures s != [] && !sep(s[0]) ==> w != []
    ensures WellFormed(w, sep)
  {
    if s == [] then []
    else if sep(s[0]) then Words(s[1..], sep)
    else if |s| == 1 || sep(s[1]) then [[s[0]]] + Words(s[1..], sep)
    else
      var w := Words(s[1..], sep);
      [[s[0]] + w[0]] + w[1..]
  }

  predicate IsWord(w: string, sep: char -> bool) {
    w != [] && forall i :: 0 <= i < |w| ==> !sep(w[i])
  }

  predicate WellFormed(ws: seq<string>, sep: char -> bool) {
    forall i :: 0 <= i < |ws| ==> IsWord(ws[i], sep)
  }

  /** `" ".join(ws)`. */
  function Join(ws: seq<string>): string {
    if ws == [] then ""
    else if |ws| == 1 then ws[0]
    else ws[0] + " " + Join(ws[1..])
  }

  function Collapse(s: string, sep: char -> bool): string {
    Join(Words(s, sep))
  }

  /** What one more leading character does to the words. */
  lemma WordsOfCons(c: char, s: string, sep: char -> bool)
    ensures Words([c] + s, sep) ==
            if sep(c) then Words(s, sep)
            else if s == [] || sep(s[0]) then [[c]] + Words(s, sep)
            else [[c] + Words(s, sep)[0]] + Words(s, sep)[1..]
  {
    assert ([c] + s)[1..] == s;
  }

  lemma {:induction false} WordsConcat(a: string, b: string, sep: char -> bool)
    requires a == [] || sep(a[|a| - 1]) || b == [] || sep(b[0])
    ensures Words(a + b, sep) == Words(a, sep) + Words(b, sep)
  {
    if a == [] {
      assert a + b == b;
      assert Words(a, sep) == [];
    } else if b == [] {
      assert a + b == a;
      assert Words(b, sep) == [];
    } else {
      var c, rest := a[0], a[1..];
      WordsConcat(rest, b, sep);
      assert a == [c] + rest && a + b == [c] + (rest + b);
      WordsOfCons(c, rest, sep);
      WordsOfCons(c, rest + b, sep);
      assert rest == [] ==> Words(rest, sep) == [] && rest + b == b;
      assert rest != [] ==> (rest + b)[0] == rest[0];
      Regrouped(c, Words(rest, sep), Words(b, sep));
      hide Words;
    }
  }

  lemma Regrouped(c: char, u: seq<string>, v: seq<string>)
    ensures [[c]] + (u + v) == ([[c]] + u) + v
    ensures u != [] ==> [[c] + (u + v)[0]] + (u + v)[1..] == ([[c] + u[0]] + u[1..]) + v
  {
    if u != [] {
      assert (u + v)[0] == u[0] && (u + v)[1..] == u[1..] + v;
    }
  }

  lemma {:induction false} WordsOfWord(w: string, sep: char -> bool)
    requires IsWord(w, sep)
    ensures Words(w, sep) == [w]
  {
    assert w == [w[0]] + w[1..];
    if |w| == 1 {
      assert [w[0]] == w && w[1..] == "";
      assert Words(w, sep) == [[w[0]]] + Words("", sep);
    } else {
      WordsOfWord(w[1..], sep);
      WordsOfCons(w[0], w[1..], sep);
    }
  }

  lemma {:induction false} WordsOfJoin(ws: seq<string>, sep: char -> bool)
    requires WellFormed(ws, sep) && sep(' ')
    ensures Words(Join(ws), sep) == ws
  {
    if ws == [] {
    } else {
      WordsOfWord(ws[0], sep);
      if |ws| > 1 {
        WordsOfJoin(ws[1..], sep);
        assert Join(ws) == ws[0] + (" " + Join(ws[1..]));
        WordsConcat(ws[0], " " + Join(ws[1..]), sep);
        assert (" " + Join(ws[1..]))[1..] == Join(ws[1..]);
        assert ws == [ws[0]] + ws[1..];
      }
    }
  }

  lemma {:induction false} JoinConcat(u: seq<string>, v: seq<string>)
    requires u != [] && v != []
    ensures Join(u + v) == Join(u) + " " + Join(v)
  {
    assert (u + v)[1..] == u[1..] + v;
    if |u| > 1 {
      JoinConcat(u[1..], v);
    } else {
      assert u[1..] + v == v;
    }
  }

  /** Collapsing loses nothing that a second collapse, or a split, could see. */
  lemma CollapseIdempotent(s: string, sep: char -> bool)
    requires sep(' ')
    ensures Words(Collapse(s, sep), sep) == Words(s, sep)
    ensures Collapse(Collapse(s, sep), sep) == Collapse(s, sep)
  {
    WordsOfJoin(Words(s, sep), sep);
  }

  /** No separator but a space, none at either end, and never two in a row. */
  predicate Tidy(s: string, sep: char -> bool) {
    && (forall i :: 0 <= i < |s| && sep(s[i]) ==> s[i] == ' ' && 0 < i < |s| - 1)
    && (forall i :: 0 <= i < |s| - 1 && sep(s[i]) ==> !sep(s[i + 1]))
  }

  lemma {:induction false} JoinIsTidy(ws: seq<string>, sep: char -> bool)
    requires WellFormed(ws, sep)
    ensures Tidy(Join(ws), sep) && (ws != [] ==> Join(ws) != "")
  {
    if |ws| <= 1 {
    } else {
      JoinIsTidy(ws[1..], sep);
      var head, rest := ws[0], Join(ws[1..]);
      assert Join(ws) == head + " " + rest;
      assert IsWord(head, sep);
      assert forall i :: 0 <= i < |rest| ==> Join(ws)[|head| + 1 + i] == rest[i];
      assert forall i :: 0 <= i < |Join(ws)| && sep(Join(ws)[i]) ==> i >= |head|;
    }
  }

  /** Collapsing keeps the words, in order, and leaves single spaces between them and nothing else. */
  lemma CollapsedIsTidy(s: string, sep: char -> bool)
    requires sep(' ')
    ensures Tidy(Collapse(s, sep), sep) && Words(Collapse(s, sep), sep) == Words(s, sep)
  {
    JoinIsTidy(Words(s, sep), sep);
    CollapseIdempotent(s, sep);
  }

  lemma {:induction false} CollapsePrefix(t: string, b: string, sep: char -> bool)
    ensures Collapse(t, sep) <= Collapse(t + b, sep)
  {
    if t == [] {
    } else {
      assert (t + b)[1..] == t[1..] + b;
      CollapsePrefix(t[1..], b, sep);
      if !sep(t[0]) {
        if |t| == 1 {
          assert Words(t, sep) == [[t[0]]];
          JoinHeadStartsWith(Words(t + b, sep), t[0]);
        } else {
          CollapseStep(t, sep);
          CollapseStep(t + b, sep);
        }
      }
    }
  }

  lemma JoinHeadStartsWith(ws: seq<string>, c: char)
    requires ws != [] && ws[0] != [] && ws[0][0] == c
    ensures Join(ws) != [] && Join(ws)[0] == c
  {
  }

  /** How one more leading non-separator changes the collapsed text. */
  lemma CollapseStep(s: string, sep: char -> bool)
    requires |s| > 1 && !sep(s[0])
    ensures var rest := Collapse(s[1..], sep);
            Collapse(s, sep) == if !sep(s[1]) then [s[0]] + rest
                                else if rest == [] then [s[0]] else [s[0]] + " " + rest
  {
    var w := Words(s[1..], sep);
    if !sep(s[1]) {
      assert ([[s[0]] + w[0]] + w[1..])[1..] == w[1..];
    } else if w != [] {
      assert ([[s[0]]] + w)[1..] == w;
      JoinHeadStartsWith(w, w[0][0]);
    }
  }

  lemma {:induction false} CollapseSuffix(a: string, t: string, sep: char -> bool)
    ensures Block(Collapse(t, sep), Collapse(a + t, sep))
  {
    hide Collapse, Block;
    if a == [] {
      assert a + t == t;
      assert Collapse(t, sep) == [] + Collapse(t, sep) + [];
      BlockIntro([], Collapse(t, sep), []);
    } else {
      assert (a + t)[1..] == a[1..] + t;
      CollapseSuffix(a[1..], t, sep);
      CollapseOfTail(a + t, sep);
      BlockTransitive(Collapse(t, sep), Collapse((a + t)[1..], sep), Collapse(a + t, sep));
    }
  }

  lemma CollapseOfTail(s: string, sep: char -> bool)
    requires s != []
    ensures Block(Collapse(s[1..], sep), Collapse(s, sep))
  {
    var rest := Collapse(s[1..], sep);
    if sep(s[0]) {
      assert Collapse(s, sep) == [] + rest + [];
      BlockIntro([], rest, []);
    } else if |s| == 1 {
      assert rest == [] && BlockAt(rest, Collapse(s, sep), 0);
    } else {
      CollapseStep(s, sep);
      hide Collapse, Words;
      if sep(s[1]) && rest == [] {
        assert BlockAt(rest, Collapse(s, sep), 0);
      } else {
        var lead := if sep(s[1]) then [s[0]] + " " else [s[0]];
        assert Collapse(s, sep) == lead + rest + [];
        BlockIntro(lead, rest, []);
      }
    }
  }

  /** Collapsing maps contiguous substrings to contiguous substrings. */
  lemma CollapseOfBlock(t: string, s: string, sep: char -> bool)
    requires Block(t, s)
    ensures Block(Collapse(t, sep), Collapse(s, sep))
  {
    var i: nat :| BlockAt(t, s, i);
    var a, b := s[..i], s[i + |t|..];
    assert s == a + (t + b);
    CollapsePrefix(t, b, sep);
    assert BlockAt(Collapse(t, sep), Collapse(t + b, sep), 0);
    CollapseSuffix(a, t + b, sep);
    BlockTransitive(Collapse(t, sep), Collapse(t + b, sep), Collapse(s, sep));
  }

  /** Character-wise full case folding (`str.casefold`): one character may become several. */
  function Fold(s: string, fold: char -> string): string {
    if s == [] then "" else fold(s[0]) + Fold(s[1..], fold)
  }

  /** Folding neither creates nor removes word boundaries. */
  ghost predicate KeepsBoundaries(fold: char -> string, sep: char -> bool) {
    forall c :: if sep(c) then fold(c) == [c] else IsWord(fold(c), sep)
  }

  function FoldWords(ws: seq<string>, fold: char -> string): seq<string> {
    if ws == [] then [] else [Fold(ws[0], fold)] + FoldWords(ws[1..], fold)
  }

  lemma {:induction false} FoldConcat(a: string, b: string, fold: char -> string)
    ensures Fold(a + b, fold) == Fold(a, fold) + Fold(b, fold)
  {
    if a == [] {
      assert a + b == b;
    } else {
      assert (a + b)[1..] == a[1..] + b;
      FoldConcat(a[1..], b, fold);
    }
  }

  /** Folding works character by character. */
  lemma FoldIsPerCharacter(s: string, fold: char -> string, i: nat)
    requires i < |s|
    ensures Fold(s, fold) == Fold(s[..i], fold) + fold(s[i]) + Fold(s[i + 1..], fold)
    ensures Fold("", fold) == ""
  {
    assert s == s[..i] + s[i..] && s[i..][1..] == s[i + 1..];
    FoldConcat(s[..i], s[i..], fold);
  }

  lemma {:induction false} PrependToWord(p: string, s: string, sep: char -> bool)
    requires IsWord(p, sep) && s != [] && !sep(s[0])
    ensures Words(p + s, sep) == [p + Words(s, sep)[0]] + Words(s, sep)[1..]
  {
    hide Words;
    var c, more := p[0], p[1..];
    assert p == [c] + more;
    if more == [] {
      assert p + s == [c] + s && p == [c];
      WordsOfCons(c, s, sep);
    } else {
      assert IsWord(more, sep);
      PrependToWord(more, s, sep);
      assert p + s == [c] + (more + s) && (more + s)[0] == more[0];
      WordsOfCons(c, more + s, sep);
      PrependedTwice(c, more, Words(s, sep)[0], Words(s, sep)[1..]);
    }
  }

  lemma PrependedTwice(c: char, more: string, head: string, rest: seq<string>)
    ensures var w := [more + head] + rest; [[c] + w[0]] + w[1..] == [([c] + more) + head] + rest
  {
    assert [c] + (more + head) == ([c] + more) + head;
  }

  lemma {:induction false} WordsOfFold(s: string, fold: char -> string, sep: char -> bool)
    requires KeepsBoundaries(fold, sep)
    ensures Words(Fold(s, fold), sep) == FoldWords(Words(s, sep), fold)
  {
    if s == [] {
    } else {
      WordsOfFold(s[1..], fold, sep);
      var head, rest := fold(s[0]), Fold(s[1..], fold);
      if sep(s[0]) {
        WordsConcat(head, rest, sep);
      } else if |s| == 1 || sep(s[1]) {
        WordEnds(s, fold, sep);
      } else {
        WordContinues(s, fold, sep);
      }
    }
  }

  lemma WordEnds(s: string, fold: char -> string, sep: char -> bool)
    requires KeepsBoundaries(fold, sep) && s != [] && !sep(s[0]) && (|s| == 1 || sep(s[1]))
    requires Words(Fold(s[1..], fold), sep) == FoldWords(Words(s[1..], sep), fold)
    ensures Words(Fold(s, fold), sep) == FoldWords(Words(s, sep), fold)
  {
    var head, rest := fold(s[0]), Fold(s[1..], fold);
    var w := Words(s[1..], sep);
    assert |s| > 1 ==> s[1..][0] == s[1] && fold(s[1]) == [s[1]];
    assert rest == [] || sep(rest[0]);
    WordsConcat(head, rest, sep);
    WordsOfWord(head, sep);
    assert Fold([s[0]], fold) == head + "" == head;
    assert ([[s[0]]] + w)[1..] == w;
  }

  lemma WordContinues(s: string, fold: char -> string, sep: char -> bool)
    requires KeepsBoundaries(fold, sep) && |s| > 1 && !sep(s[0]) && !sep(s[1])
    requires Words(Fold(s[1..], fold), sep) == FoldWords(Words(s[1..], sep), fold)
    ensures Words(Fold(s, fold), sep) == FoldWords(Words(s, sep), fold)
  {
    var head, rest := fold(s[0]), Fold(s[1..], fold);
    var w := Words(s[1..], sep);
    assert s[1..][0] == s[1] && IsWord(fold(s[1]), sep);
    assert rest == fold(s[1]) + Fold(s[1..][1..], fold);
    assert rest[0] == fold(s[1])[0] && !sep(rest[0]);
    PrependToWord(head, rest, sep);
    FoldConcat([s[0]], w[0], fold);
    assert Fold([s[0]], fold) == head + "" == head;
    assert ([[s[0]] + w[0]] + w[1..])[1..] == w[1..];
  }

  /** The evidence normaliser: `" ".join(value.casefold().split())`. */
  function Normalize(s: string, fold: char -> string, sep: char -> bool): string {
    Collapse(Fold(s, fold), sep)
  }

  /** The normal form has the words of the text, each folded, with single spaces between them. */
  lemma NormalizedWords(s: string, fold: char -> string, sep: char -> bool)
    requires KeepsBoundaries(fold, sep) && sep(' ')
    ensures var ws := Words(Normalize(s, fold, sep), sep);
            && Tidy(Normalize(s, fold, sep), sep) && |ws| == |Words(s, sep)|
            && forall i :: 0 <= i < |ws| ==> ws[i] == Fold(Words(s, sep)[i], fold)
  {
    CollapsedIsTidy(Fold(s, fold), sep);
    WordsOfFold(s, fold, sep);
    FoldedWords(Words(s, sep), fold);
  }

  lemma {:induction false} FoldedWords(ws: seq<string>, fold: char -> string)
    ensures |FoldWords(ws, fold)| == |ws| && forall i :: 0 <= i < |ws| ==> FoldWords(ws, fold)[i] == Fold(ws[i], fold)
  {
    if ws == [] {
    } else {
      FoldedWords(ws[1..], fold);
    }
  }

  lemma FoldOfBlock(t: string, s: string, fold: char -> string)
    requires Block(t, s)
    ensures Block(Fold(t, fold), Fold(s, fold))
  {
    var i: nat :| BlockAt(t, s, i);
    var a, b := s[..i], s[i + |t|..];
    assert s == a + (t + b);
    FoldConcat(a, t + b, fold);
    FoldConcat(t, b, fold);
    assert Fold(s, fold) == Fold(a, fold) + Fold(t, fold) + Fold(b, fold);
    BlockIntro(Fold(a, fold), Fold(t, fold), Fold(b, fold));
  }

  lemma NormalizeOfBlock(t: string, s: string, fold: char -> string, sep: char -> bool)
    requires Block(t, s)
    ensures Block(Normalize(t, fold, sep), Normalize(s, fold, sep))
  {
    FoldOfBlock(t, s, fold);
    CollapseOfBlock(Fold(t, fold), Fold(s, fold), sep);
  }

  /** Collapsing first makes no difference to the normal form. */
  lemma NormalizeIgnoresCollapse(s: string, fold: char -> string, sep: char -> bool)
    requires KeepsBoundaries(fold, sep) && sep(' ')
    ensures Normalize(Collapse(s, sep), fold, sep) == Normalize(s, fold, sep)
  {
    CollapseIdempotent(s, sep);
    WordsOfFold(Collapse(s, sep), fold, sep);
    WordsOfFold(s, fold, sep);
  }
}
