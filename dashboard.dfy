/** The landing-page dashboard: the four summary amounts folded over the
    fetched invoice rows, the badge colour chosen from the lower-cased status,
    and the badge text with its first underscore turned into a space. */
module Dashboard {
  import opened Strings
  import opened Js
  import Seqs

  // ---------------------------------------------------------------- summary

  /** JavaScript `+` on numbers as far as NaN goes: NaN absorbs everything. */
  function Plus(a: Number, b: Number): Number
  {
    if a.Finite? && b.Finite? then Finite(a.x + b.x) else NaN
  }

  /** `parseFloat(invoice[key] || 0)`: a falsy field reads as 0. */
  function FieldAmount(row: Object, key: string): Number
  {
    var v := Get(row, key);
    ParseFloat(if Truthy(v) then v else Num(0.0))
  }

  /** `data.reduce((acc, invoice) => acc + parseFloat(invoice[key] || 0), 0)`. */
  function SumField(rows: seq<Object>, key: string): Number
  {
    if rows == [] then Finite(0.0)
    else Plus(SumField(rows[..|rows| - 1], key), FieldAmount(rows[|rows| - 1], key))
  }

  datatype Summary = Summary(chiffreAffaires: Number, encaisse: Number, enAttente: Number, enRetard: Number)

  /** The summary before anything is fetched. */
  const Initial := Summary(Finite(0.0), Finite(0.0), Finite(0.0), Finite(0.0))

  const SummaryKeys := ["total_ttc", "encaissé", "en_attente", "en_retard"]

  /** The four reductions of `fetchInvoices`. */
  function Summarize(rows: seq<Object>): Summary
  {
    Summary(SumField(rows, "total_ttc"), SumField(rows, "encaissé"),
            SumField(rows, "en_attente"), SumField(rows, "en_retard"))
  }

  /** The field reads as a non-negative number. */
  predicate NonNegativeField(row: Object, key: string)
  {
    FieldAmount(row, key).Finite? && FieldAmount(row, key).x >= 0.0
  }

  /** A row without the field, or with a falsy one, adds 0. */
  lemma MissingFieldIsZero(row: Object, key: string)
    requires key !in row || !Truthy(row[key])
    ensures FieldAmount(row, key) == Finite(0.0)
  {
  }

  /** Adding one more row adds its field to the sum. */
  lemma SumFieldSnoc(rows: seq<Object>, row: Object, key: string)
    ensures SumField(rows + [row], key) == Plus(SumField(rows, key), FieldAmount(row, key))
  {
    assert (rows + [row])[..|rows|] == rows;
  }

  /** A row without the field changes no sum. */
  lemma MissingFieldChangesNothing(rows: seq<Object>, row: Object, key: string)
    requires key !in row
    ensures SumField(rows + [row], key) == SumField(rows, key)
  {
    SumFieldSnoc(rows, row, key);
  }

  lemma PlusAssociative(a: Number, b: Number, c: Number)
    ensures Plus(Plus(a, b), c) == Plus(a, Plus(b, c))
  {
  }

  /** The fold over two runs of rows combines the partial sums. */
  lemma {:induction false} SumFieldConcat(a: seq<Object>, b: seq<Object>, key: string)
    ensures SumField(a + b, key) == Plus(SumField(a, key), SumField(b, key))
    decreases |b|
  {
    if b == [] {
      assert a + b == a;
    } else {
      var front, last := b[..|b| - 1], b[|b| - 1];
      assert a + b == (a + front) + [last];
      SumFieldSnoc(a + front, last, key);
      SumFieldConcat(a, front, key);
      PlusAssociative(SumField(a, key), SumField(front, key), FieldAmount(last, key));
    }
  }

  /** With every field a non-negative number, the sum is a non-negative number. */
  lemma {:induction false} SumFieldNonNegative(rows: seq<Object>, key: string)
    requires forall i :: 0 <= i < |rows| ==> NonNegativeField(rows[i], key)
    ensures SumField(rows, key).Finite? && SumField(rows, key).x >= 0.0
    decreases |rows|
  {
    if rows != [] {
      SumFieldNonNegative(rows[..|rows| - 1], key);
    }
  }

  /** The field does not parse, and its NaN reaches the sum. */
  predicate NaNField(row: Object, key: string)
  {
    FieldAmount(row, key).NaN?
  }

  /** The sum is NaN exactly when some row's field does not parse. */
  lemma {:induction false} SumFieldNaN(rows: seq<Object>, key: string)
    ensures SumField(rows, key).NaN? <==> exists i :: 0 <= i < |rows| && NaNField(rows[i], key)
    decreases |rows|
  {
    if rows != [] {
      var front, last := rows[..|rows| - 1], rows[|rows| - 1];
      SumFieldNaN(front, key);
      assert SumField(rows, key) == Plus(SumField(front, key), FieldAmount(last, key));
      if NaNField(last, key) {
        assert NaNField(rows[|rows| - 1], key);
      } else if SumField(front, key).NaN? {
        var i :| 0 <= i < |front| && NaNField(front[i], key);
        assert rows[i] == front[i];
      } else {
        forall i | 0 <= i < |rows| ensures !NaNField(rows[i], key) {
          if i < |front| {
            assert front[i] == rows[i];
          }
        }
      }
    }
  }

  /** Nothing fetched: all four amounts are 0, as in the initial state. */
  lemma EmptySummary()
    ensures Summarize([]) == Initial
  {
  }

  /** With every field a non-negative number, every summary amount is one too. */
  lemma SummaryNonNegative(rows: seq<Object>)
    requires forall k, i :: k in SummaryKeys && 0 <= i < |rows| ==> NonNegativeField(rows[i], k)
    ensures var s := Summarize(rows);
            s.chiffreAffaires.Finite? && s.chiffreAffaires.x >= 0.0
            && s.encaisse.Finite? && s.encaisse.x >= 0.0
            && s.enAttente.Finite? && s.enAttente.x >= 0.0
            && s.enRetard.Finite? && s.enRetard.x >= 0.0
  {
    forall k | k in SummaryKeys ensures SumField(rows, k).Finite? && SumField(rows, k).x >= 0.0 {
      SumFieldNonNegative(rows, k);
    }
  }

  /** The summary of two runs of rows adds the two summaries field by field. */
  lemma SummaryConcat(a: seq<Object>, b: seq<Object>)
    ensures var s, t := Summarize(a), Summarize(b);
            Summarize(a + b) == Summary(Plus(s.chiffreAffaires, t.chiffreAffaires), Plus(s.encaisse, t.encaisse),
                                        Plus(s.enAttente, t.enAttente), Plus(s.enRetard, t.enRetard))
  {
    SumFieldConcat(a, b, "total_ttc");
    SumFieldConcat(a, b, "encaissé");
    SumFieldConcat(a, b, "en_attente");
    SumFieldConcat(a, b, "en_retard");
  }

  /** A whole number sent as a string, "0" included, reads as its value. */
  lemma WholeNumberStringParses(row: Object, key: string, n: nat)
    requires Get(row, key) == Str(NatToString(n))
    ensures FieldAmount(row, key) == Finite(n as real)
  {
    NatStringParses(n);
  }

  // ---------------------------------------------------------------- badge

  const Green := "bg-green-100 text-green-800"
  const Yellow := "bg-yellow-100 text-yellow-800"
  const Red := "bg-red-100 text-red-800"
  const Gray := "bg-gray-100 text-gray-800"

  /** `getStatusColor`: the `switch` on `status.toLowerCase()`. */
  function StatusColor(status: string): (r: string)
    ensures r == Green <==> Lower(status) == "payée"
    ensures r == Yellow <==> Lower(status) in ["en_attente", "en attente"]
    ensures r == Red <==> Lower(status) in ["en_retard", "en retard"]
    ensures r == Gray <==> Lower(status) !in ["payée", "en_attente", "en attente", "en_retard", "en retard"]
  {
    match Lower(status)
    case "payée" => Green
    case "en_attente" => Yellow
    case "en attente" => Yellow
    case "en_retard" => Red
    case "en retard" => Red
    case "brouillon" => Gray
    case _ => Gray
  }

  /** The colour does not depend on the letter case of the status. */
  lemma StatusColorCaseInsensitive(status: string)
    ensures StatusColor(Lower(status)) == StatusColor(status)
  {
    LowerIdempotent(status);
  }

  /** The first index of `c` in `s`, or `|s|`. */
  function FirstIndex(s: string, c: char): (i: nat)
    ensures i <= |s|
    ensures forall k :: 0 <= k < i ==> s[k] != c
    ensures i < |s| ==> s[i] == c
  {
    if s == [] then 0 else if s[0] == c then 0 else 1 + FirstIndex(s[1..], c)
  }

  /** `s.replace(a, b)` with a one-character string pattern: the first `a` only. */
  function ReplaceFirst(s: string, a: char, b: char): string
  {
    if s == [] then []
    else if s[0] == a then [b] + s[1..]
    else [s[0]] + ReplaceFirst(s[1..], a, b)
  }

  /** `ReplaceFirst` changes the character at the first occurrence and nothing else. */
  lemma {:induction false} ReplaceFirstPointwise(s: string, a: char, b: char)
    ensures |ReplaceFirst(s, a, b)| == |s|
    ensures forall k :: 0 <= k < |s| ==> ReplaceFirst(s, a, b)[k] == if k == FirstIndex(s, a) then b else s[k]
  {
    if s != [] && s[0] != a {
      var t := s[1..];
      ReplaceFirstPointwise(t, a, b);
      var r := ReplaceFirst(s, a, b);
      assert r == [s[0]] + ReplaceFirst(t, a, b);
      assert FirstIndex(s, a) == 1 + FirstIndex(t, a);
      forall k | 0 < k < |s|
        ensures r[k] == if k == FirstIndex(s, a) then b else s[k]
      {
        assert r[k] == ReplaceFirst(t, a, b)[k - 1];
        assert s[k] == t[k - 1];
      }
    }
  }

  /** The same as one slice: the text before the first `a`, then `b`, then the rest. */
  lemma ReplaceFirstAt(s: string, a: char, b: char)
    ensures var i := FirstIndex(s, a);
            ReplaceFirst(s, a, b) == if i == |s| then s else s[..i] + [b] + s[i + 1..]
  {
    ReplaceFirstPointwise(s, a, b);
    var i := FirstIndex(s, a);
    if i < |s| {
      assert ReplaceFirst(s, a, b) == s[i := b];
      Seqs.UpdateIsSplice(s, i, b);
    } else {
      assert ReplaceFirst(s, a, b) == s;
    }
  }

  /** The badge text: `status.replace('_', ' ')`. */
  function StatusLabel(status: string): string
  {
    ReplaceFirst(status, '_', ' ')
  }

  /** The pieces of `p + [c] + q`. */
  lemma JoinParts(p: string, c: char, q: string)
    ensures (p + [c] + q)[..|p|] == p && (p + [c] + q)[|p|] == c && (p + [c] + q)[|p| + 1..] == q
  {
    var t := p + [c] + q;
    assert t[..|p|] == p;
    assert t[|p| + 1..] == q;
  }

  /** Each position of `p + [c] + q` comes from `p`, is the `c`, or comes from `q`. */
  lemma JoinIndex(p: string, c: char, q: string, k: int)
    requires 0 <= k < |p| + 1 + |q|
    ensures (p + [c] + q)[k] == if k < |p| then p[k] else if k == |p| then c else q[k - |p| - 1]
  {
  }

  /** A status made of two underscore-free words joined by `_` is labelled with a space there. */
  lemma LabelOfJoin(p: string, q: string)
    requires '_' !in p
    ensures StatusLabel(p + "_" + q) == p + " " + q
  {
    var t := p + "_" + q;
    JoinParts(p, '_', q);
    assert FirstIndex(t, '_') == |p| by {
      forall k | 0 <= k < |p| ensures t[k] != '_' { assert t[k] == p[k]; }
    }
    ReplaceFirstAt(t, '_', ' ');
  }

  lemma PendingWords()
    ensures "en" + "_" + "attente" == "en_attente" && "en" + " " + "attente" == "en attente"
    ensures ' ' !in "en" && ' ' !in "attente" && '_' !in "en" && '_' !in "attente" && ' ' !in "en_attente"
  {
  }

  lemma LateWords()
    ensures "en" + "_" + "retard" == "en_retard" && "en" + " " + "retard" == "en retard"
    ensures ' ' !in "en" && ' ' !in "retard" && '_' !in "en" && '_' !in "retard" && ' ' !in "en_retard"
  {
  }

  lemma ShortWords()
    ensures "a" + "_" + "b_c" == "a_b_c" && "a" + " " + "b_c" == "a b_c"
  {
  }

  lemma StatusLabelExamples()
    ensures StatusLabel("en_attente") == "en attente"
    ensures StatusLabel("en_retard") == "en retard"
    ensures StatusLabel("payée") == "payée"
    ensures StatusLabel("a_b_c") == "a b_c"
  {
    PendingWords();
    LabelOfJoin("en", "attente");
    LateWords();
    LabelOfJoin("en", "retard");
    LabelWithoutUnderscore("payée");
    ShortWords();
    LabelOfJoin("a", "b_c");
  }

  lemma LowerUnderscore(c: char)
    ensures LowerChar(c) == '_' <==> c == '_'
    ensures LowerChar(' ') == ' '
  {
  }

  /** Lower-casing and the underscore replacement commute. */
  lemma LowerLabel(s: string)
    ensures Lower(StatusLabel(s)) == StatusLabel(Lower(s))
  {
    var t := Lower(s);
    forall k | 0 <= k < |s| ensures t[k] == '_' <==> s[k] == '_' {
      LowerUnderscore(s[k]);
    }
    var i := FirstIndex(s, '_');
    assert FirstIndex(t, '_') == i;
    ReplaceFirstPointwise(s, '_', ' ');
    ReplaceFirstPointwise(t, '_', ' ');
    var l, r := Lower(StatusLabel(s)), StatusLabel(t);
    forall k | 0 <= k < |s| ensures l[k] == r[k] {
      LowerUnderscore(s[k]);
    }
  }

  /** A text without a space is the label only of itself. */
  lemma LabelWithoutSpace(t: string, r: string)
    requires ' ' !in r
    ensures StatusLabel(t) == r ==> t == r
  {
    ReplaceFirstAt(t, '_', ' ');
  }

  /** A status without an underscore is its own label. */
  lemma LabelWithoutUnderscore(t: string)
    requires '_' !in t
    ensures StatusLabel(t) == t
  {
    ReplaceFirstAt(t, '_', ' ');
  }

  /** `p + " " + q`, with one space and no underscore, is the label of exactly
      itself and of `p + "_" + q`. */
  lemma LabelWithOneSpace(t: string, p: string, q: string)
    requires ' ' !in p && ' ' !in q && '_' !in p && '_' !in q
    ensures StatusLabel(t) == p + " " + q <==> t == p + " " + q || t == p + "_" + q
  {
    if StatusLabel(t) == p + " " + q { SpacedLabelSource(t, p, q); }
    if t == p + " " + q {
      assert '_' !in t by {
        forall k | 0 <= k < |t| ensures t[k] != '_' { JoinIndex(p, ' ', q, k); }
      }
      LabelWithoutUnderscore(t);
    }
    if t == p + "_" + q { LabelOfJoin(p, q); }
  }

  /** A status whose label is `p + " " + q` had a space or an underscore between `p` and `q`. */
  lemma SpacedLabelSource(t: string, p: string, q: string)
    requires ' ' !in p && ' ' !in q
    requires StatusLabel(t) == p + " " + q
    ensures t == p + " " + q || t == p + "_" + q
  {
    var r := p + " " + q;
    ReplaceFirstAt(t, '_', ' ');
    var i := FirstIndex(t, '_');
    if i < |t| {
      ReplaceFirstPointwise(t, '_', ' ');
      JoinIndex(p, ' ', q, i);
      JoinParts(p, ' ', q);
      assert t[..i] == r[..i];
      assert t[i + 1..] == r[i + 1..];
      Seqs.SplitAt(t, i);
    }
  }

  /** Only "payée" is labelled "payée". */
  lemma LabelIsPaid(t: string)
    ensures StatusLabel(t) == "payée" <==> t == "payée"
  {
    LabelWithoutSpace(t, "payée");
    LabelWithoutUnderscore("payée");
  }

  /** Exactly the two pending spellings get a pending label. */
  lemma LabelIsPending(t: string)
    ensures StatusLabel(t) == "en_attente" || StatusLabel(t) == "en attente"
            <==> t == "en_attente" || t == "en attente"
  {
    LabelWithoutSpace(t, "en_attente");
    PendingWords();
    LabelOfJoin("en", "attente");
    LabelWithOneSpace(t, "en", "attente");
  }

  /** Exactly the two late spellings get a late label. */
  lemma LabelIsLate(t: string)
    ensures StatusLabel(t) == "en_retard" || StatusLabel(t) == "en retard"
            <==> t == "en_retard" || t == "en retard"
  {
    LabelWithoutSpace(t, "en_retard");
    LateWords();
    LabelOfJoin("en", "retard");
    LabelWithOneSpace(t, "en", "retard");
  }

  /** The badge text, lower-cased, picks the same colour as the status. */
  lemma LabelKeepsColor(status: string)
    ensures StatusColor(StatusLabel(status)) == StatusColor(status)
  {
    LowerLabel(status);
    LabelIsPaid(Lower(status));
    LabelIsPending(Lower(status));
    LabelIsLate(Lower(status));
  }
}
