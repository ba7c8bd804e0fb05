/** The invoice/quote editor page: its line items, the totals calculator,
    the French amount in words and the text layout of the generated PDF. */
module InvoicePage {
  import opened Strings
  import opened Seqs
  import opened Pdf

  datatype Item = Item(description: string, quantity: int, unitPrice: real, vatRate: int, totalHT: real)

  datatype Settings = Settings(
    enableVAT: bool,
    variableVATPerLine: bool,
    defaultVATRate: int,
    enableFiscalStamp: bool,
    fiscalStampAmount: real)

  datatype Company = Company(name: string, address: string, phone: string, email: string, siret: string, rib: string)

  datatype Client = Client(name: string, address: string, siret: string)

  datatype DocumentType = Invoice | Quote

  datatype Totals = Totals(totalHT: real, totalVAT: real, fiscalStamp: real, totalTTC: real)

  /** Everything `generatePDF` reads from the page state. */
  datatype Document = Document(
    documentType: DocumentType,
    invoiceNumber: string,
    invoiceDate: string,
    deliveryDate: string,
    currency: string,
    settings: Settings,
    company: Company,
    client: Client,
    items: seq<Item>)

  /** The fields the item table edits through `updateItem(index, field, value)`. */
  datatype Edit = SetDescription(d: string) | SetQuantity(q: int) | SetUnitPrice(p: real) | SetVatRate(r: int)

  const DefaultSettings := Settings(true, false, 19, true, 1.0)

  const DefaultCompany := Company("E-Tafakna SARL", "Tunis, Tunisie", "+216 XX XXX XXX",
                                  "contact@e-tafakna.com", "XXXXXXXXXXXXXXX", "XX XXX XXXXXXXXXXXXXXX XX")

  function TypeName(t: DocumentType): string
  {
    if t == Invoice then "invoice" else "quote"
  }

  // ---------------------------------------------------------------- line items

  /** The row `addItem` appends and the page starts with. */
  function BlankItem(rate: int): Item
  {
    Item("", 1, 0.0, rate, 0.0)
  }

  predicate LineTotalHolds(it: Item)
  {
    it.totalHT == it.quantity as real * it.unitPrice
  }

  predicate LineTotalsHold(items: seq<Item>)
  {
    forall i :: 0 <= i < |items| ==> LineTotalHolds(items[i])
  }

  /** `addItem`: one blank row at the end, carrying the current default rate. */
  function AddedItems(items: seq<Item>, defaultRate: int): (r: seq<Item>)
    ensures |r| == |items| + 1 && r[..|items|] == items
    ensures r[|items|] == BlankItem(defaultRate)
    ensures LineTotalsHold(items) ==> LineTotalsHold(r)
  {
    items + [BlankItem(defaultRate)]
  }

  /** `removeItem(index)`: the guard never removes the last row. */
  function RemovedItems(items: seq<Item>, index: int): (r: seq<Item>)
    ensures |items| <= 1 ==> r == items
    ensures |items| > 1 && 0 <= index < |items| ==> r == items[..index] + items[index + 1..]
    ensures |items| > 1 && !(0 <= index < |items|) ==> r == items
    ensures |items| > 0 ==> |r| > 0
    ensures LineTotalsHold(items) ==> LineTotalsHold(r)
  {
    if |items| > 1 then RemoveIndex(items, index) else items
  }

  /** `{ ...item, [field]: value }`, then `totalHT` recomputed for quantity and price. */
  function EditedItem(it: Item, e: Edit): Item
  {
    match e
    case SetDescription(d) => it.(description := d)
    case SetQuantity(q) => it.(quantity := q, totalHT := q as real * it.unitPrice)
    case SetUnitPrice(p) => it.(unitPrice := p, totalHT := it.quantity as real * p)
    case SetVatRate(r) => it.(vatRate := r)
  }

  /** `updateItem(index, field, value)`. */
  function UpdatedItems(items: seq<Item>, index: nat, e: Edit): (r: seq<Item>)
    requires index < |items|
    ensures |r| == |items|
    ensures forall j :: 0 <= j < |items| && j != index ==> r[j] == items[j]
    ensures r[index] == EditedItem(items[index], e)
    ensures (e.SetQuantity? || e.SetUnitPrice?) ==> LineTotalHolds(r[index])
    ensures LineTotalsHold(items) ==> LineTotalsHold(r)
  {
    items[index := EditedItem(items[index], e)]
  }

  /** One user action on the item table. */
  datatype Action = AddRow(defaultRate: int) | RemoveRow(at: int) | UpdateRow(row: nat, edit: Edit)

  /** The table only offers updates on rows it shows. */
  predicate Applicable(items: seq<Item>, a: Action)
  {
    a.UpdateRow? ==> a.row < |items|
  }

  function Step(items: seq<Item>, a: Action): seq<Item>
    requires Applicable(items, a)
  {
    match a
    case AddRow(rate) => AddedItems(items, rate)
    case RemoveRow(i) => RemovedItems(items, i)
    case UpdateRow(i, e) => UpdatedItems(items, i, e)
  }

  predicate Issuable(items: seq<Item>, actions: seq<Action>)
    decreases |actions|
  {
    actions == [] || (Applicable(items, actions[0]) && Issuable(Step(items, actions[0]), actions[1..]))
  }

  function Replay(items: seq<Item>, actions: seq<Action>): seq<Item>
    requires Issuable(items, actions)
    decreases |actions|
  {
    if actions == [] then items else Replay(Step(items, actions[0]), actions[1..])
  }

  /** Any run of add, remove and update keeps every line total equal to
      quantity times unit price, and keeps at least one row. */
  lemma {:induction false} ReplayKeepsLineTotals(items: seq<Item>, actions: seq<Action>)
    requires |items| > 0 && LineTotalsHold(items) && Issuable(items, actions)
    ensures |Replay(items, actions)| > 0 && LineTotalsHold(Replay(items, actions))
    decreases |actions|
  {
    if actions != [] {
      ReplayKeepsLineTotals(Step(items, actions[0]), actions[1..]);
    }
  }

  /** The same from the page's initial single blank row. */
  lemma FromInitialRow(rate: int, actions: seq<Action>)
    requires Issuable([BlankItem(rate)], actions)
    ensures |Replay([BlankItem(rate)], actions)| > 0 && LineTotalsHold(Replay([BlankItem(rate)], actions))
  {
    ReplayKeepsLineTotals([BlankItem(rate)], actions);
  }

  // ---------------------------------------------------------------- totals

  function SumHT(items: seq<Item>): real
  {
    if items == [] then 0.0 else SumHT(items[..|items| - 1]) + items[|items| - 1].totalHT
  }

  /** Each line's VAT uses the rate stored on the line. */
  function LineVAT(it: Item): real
  {
    it.totalHT * it.vatRate as real / 100.0
  }

  function SumVAT(items: seq<Item>): real
  {
    if items == [] then 0.0 else SumVAT(items[..|items| - 1]) + LineVAT(items[|items| - 1])
  }

  /** `calculateTotals`. */
  function CalculateTotals(items: seq<Item>, s: Settings): Totals
  {
    var ht := SumHT(items);
    var vat := if s.enableVAT then SumVAT(items) else 0.0;
    var stamp := if s.enableFiscalStamp then s.fiscalStampAmount else 0.0;
    Totals(ht, vat, stamp, ht + vat + stamp)
  }

  /** Sum of quantity times unit price, computed without the stored line totals. */
  function SumProducts(items: seq<Item>): real
  {
    if items == [] then 0.0
    else SumProducts(items[..|items| - 1]) + items[|items| - 1].quantity as real * items[|items| - 1].unitPrice
  }

  lemma {:induction false} SumHTConcat(a: seq<Item>, b: seq<Item>)
    ensures SumHT(a + b) == SumHT(a) + SumHT(b)
    ensures SumVAT(a + b) == SumVAT(a) + SumVAT(b)
    decreases |b|
  {
    if b != [] {
      var b' := b[..|b| - 1];
      assert (a + b)[..|a + b| - 1] == a + b';
      SumHTConcat(a, b');
    } else {
      assert a + b == a;
    }
  }

  /** The HT total is the sum of quantity times unit price whenever line totals are current. */
  lemma {:induction false} TotalHTIsSumOfProducts(items: seq<Item>, s: Settings)
    requires LineTotalsHold(items)
    ensures CalculateTotals(items, s).totalHT == SumProducts(items)
    decreases |items|
  {
    if items != [] {
      var front := items[..|items| - 1];
      assert LineTotalsHold(front) by {
        forall i | 0 <= i < |front| ensures LineTotalHolds(front[i]) {
          assert front[i] == items[i];
        }
      }
      assert LineTotalHolds(items[|items| - 1]);
      TotalHTIsSumOfProducts(front, s);
    }
  }

  /** Totals in general: the TTC identity, and switched-off VAT and stamp contribute nothing. */
  lemma TotalsIdentity(items: seq<Item>, s: Settings)
    ensures var t := CalculateTotals(items, s);
      t.totalTTC == t.totalHT + t.totalVAT + t.fiscalStamp
      && (!s.enableVAT ==> t.totalVAT == 0.0)
      && (!s.enableFiscalStamp ==> t.fiscalStamp == 0.0)
      && (s.enableFiscalStamp ==> t.fiscalStamp == s.fiscalStampAmount)
  {
  }

  /** With no rows the TTC total is the stamp alone. */
  lemma EmptyTotals(s: Settings)
    ensures var t := CalculateTotals([], s);
      t.totalHT == 0.0 && t.totalVAT == 0.0 && t.totalTTC == t.fiscalStamp
  {
  }

  /** When every row carries the same rate, the VAT is that rate of the HT total. */
  lemma {:induction false} UniformRateVAT(items: seq<Item>, s: Settings, rate: int)
    requires s.enableVAT
    requires forall i :: 0 <= i < |items| ==> items[i].vatRate == rate
    ensures CalculateTotals(items, s).totalVAT == CalculateTotals(items, s).totalHT * rate as real / 100.0
    decreases |items|
  {
    if items != [] {
      UniformRateVAT(items[..|items| - 1], s, rate);
    }
  }

  /** Neither the default rate nor the per-line switch enters the totals:
      the VAT always comes from the rates stored on the rows. */
  lemma TotalsIgnoreDefaultRate(items: seq<Item>, s: Settings, rate: int, perLine: bool)
    ensures CalculateTotals(items, s) == CalculateTotals(items, s.(defaultVATRate := rate, variableVATPerLine := perLine))
  {
  }

  /** A row stored at 7% is taxed at 7% even with per-line VAT off and a 19% default. */
  lemma StoredRateWinsExample()
    ensures CalculateTotals([Item("", 1, 100.0, 7, 100.0)], DefaultSettings).totalVAT == 7.0
  {
  }

  /** Two units at 100 with 19% VAT and a stamp of 1: 200 + 38 + 1 = 239. */
  lemma ConsultingExample()
    ensures CalculateTotals([Item("Consulting", 2, 100.0, 19, 200.0)], DefaultSettings)
         == Totals(200.0, 38.0, 1.0, 239.0)
  {
  }

  /** Non-negative line totals, rates and stamp give non-negative totals. */
  lemma {:induction false} TotalsNonNegative(items: seq<Item>, s: Settings)
    requires forall i :: 0 <= i < |items| ==> items[i].totalHT >= 0.0 && items[i].vatRate >= 0
    requires s.fiscalStampAmount >= 0.0
    ensures var t := CalculateTotals(items, s);
      t.totalHT >= 0.0 && t.totalVAT >= 0.0 && t.fiscalStamp >= 0.0 && t.totalTTC >= t.totalHT
    decreases |items|
  {
    if items != [] {
      var last := items[|items| - 1];
      TotalsNonNegative(items[..|items| - 1], s);
      assert LineVAT(last) >= 0.0 by {
        assert last.totalHT * last.vatRate as real >= 0.0;
      }
    }
  }

  /** A new blank row changes no total. */
  lemma AddKeepsTotals(items: seq<Item>, rate: int, s: Settings)
    ensures CalculateTotals(AddedItems(items, rate), s) == CalculateTotals(items, s)
  {
    var r := AddedItems(items, rate);
    assert r[..|r| - 1] == items;
  }

  /** The sums of a list with one row picked out. */
  lemma SumsAround(a: seq<Item>, x: Item, b: seq<Item>)
    ensures SumHT(a + [x] + b) == SumHT(a) + x.totalHT + SumHT(b)
    ensures SumVAT(a + [x] + b) == SumVAT(a) + LineVAT(x) + SumVAT(b)
  {
    SumHTConcat(a + [x], b);
    assert (a + [x])[..|a|] == a;
  }

  /** Removing a row takes exactly its amounts off the totals. */
  lemma RemoveSubtractsRow(items: seq<Item>, index: nat, s: Settings)
    requires 1 < |items| && index < |items|
    ensures SumHT(RemovedItems(items, index)) == SumHT(items) - items[index].totalHT
    ensures SumVAT(RemovedItems(items, index)) == SumVAT(items) - LineVAT(items[index])
  {
    var front, back := items[..index], items[index + 1..];
    SplitAt(items, index);
    SumsAround(front, items[index], back);
    SumHTConcat(front, back);
  }

  // ---------------------------------------------------------------- amount in words

  const Ones: seq<string> := ["", "un", "deux", "trois", "quatre", "cinq", "six", "sept", "huit", "neuf"]
  const Teens: seq<string> := ["dix", "onze", "douze", "treize", "quatorze", "quinze", "seize", "dix-sept", "dix-huit", "dix-neuf"]
  const Tens: seq<string> := ["", "", "vingt", "trente", "quarante", "cinquante", "soixante", "soixante-dix", "quatre-vingt", "quatre-vingt-dix"]

  predicate NoDigits(s: string)
  {
    forall i :: 0 <= i < |s| ==> !IsDigit(s[i])
  }

  lemma TablesHaveNoDigits()
    ensures forall i :: 0 <= i < 10 ==> NoDigits(Ones[i]) && NoDigits(Teens[i]) && NoDigits(Tens[i])
  {
    OnesHaveNoDigits();
    TeensHaveNoDigits();
    TensHaveNoDigits();
  }

  lemma OnesHaveNoDigits()
    ensures forall i :: 0 <= i < 10 ==> NoDigits(Ones[i])
  {
  }

  lemma TeensHaveNoDigits()
    ensures forall i :: 0 <= i < 10 ==> NoDigits(Teens[i])
  {
  }

  lemma TensHaveNoDigits()
    ensures forall i :: 0 <= i < 10 ==> NoDigits(Tens[i])
  {
  }

  lemma NoDigitsConcat(a: string, b: string)
    requires NoDigits(a) && NoDigits(b)
    ensures NoDigits(a + b)
  {
    assert forall i :: 0 <= i < |a + b| ==> (a + b)[i] == if i < |a| then a[i] else b[i - |a|];
  }

  /** The part after the tens word: `'-' + ones[u]`, or nothing for a round ten. */
  function Unit(u: int): string
    requires 0 <= u < 10
  {
    if u != 0 then "-" + Ones[u] else ""
  }

  /** `numberToWords`: French words below 100, the digits from 100 on. A negative
      argument indexes `ones` out of range; the template then prints "undefined". */
  function NumberToWords(n: int): (w: string)
    ensures 0 <= n < 100 ==> w != "" && NoDigits(w)
    ensures n >= 100 ==> AllDigits(w) && DigitsValue(w) == n
  {
    if n == 0 then "zéro"
    else if n < 0 then "undefined"
    else if n < 10 then OnesHaveNoDigits(); Ones[n]
    else if n < 20 then TeensHaveNoDigits(); Teens[n - 10]
    else if n < 100 then
      var unit := Unit(n % 10);
      TensHaveNoDigits();
      OnesHaveNoDigits();
      assert NoDigits(unit) by {
        if n % 10 != 0 { NoDigitsConcat("-", Ones[n % 10]); }
      }
      NoDigitsConcat(Tens[n / 10], unit);
      Tens[n / 10] + unit
    else
      NatToStringRoundTrip(n);
      NatToString(n)
  }

  lemma NumberToWordsExamples()
    ensures NumberToWords(0) == "zéro"
    ensures NumberToWords(7) == "sept" && NumberToWords(17) == "dix-sept"
    ensures NumberToWords(21) == "vingt-un" && NumberToWords(71) == "soixante-dix-un"
    ensures NumberToWords(80) == "quatre-vingt" && NumberToWords(99) == "quatre-vingt-dix-neuf"
    ensures NumberToWords(100) == "100"
  {
    WordsBelowTwenty();
    WordsOfTens();
    WordsOfEighties();
    WordsOfHundred();
  }

  lemma WordsBelowTwenty()
    ensures NumberToWords(0) == "zéro"
    ensures NumberToWords(7) == "sept" && NumberToWords(17) == "dix-sept"
  {
  }

  lemma WordsOfTens()
    ensures NumberToWords(21) == "vingt-un" && NumberToWords(71) == "soixante-dix-un"
  {
    assert NumberToWords(21) == Tens[2] + "-" + Ones[1];
    assert NumberToWords(71) == Tens[7] + "-" + Ones[1];
  }

  lemma WordsOfEighties()
    ensures NumberToWords(80) == "quatre-vingt" && NumberToWords(99) == "quatre-vingt-dix-neuf"
  {
    assert NumberToWords(80) == Tens[8] + "";
    assert NumberToWords(99) == Tens[9] + "-" + Ones[9];
  }

  lemma WordsOfHundred()
    ensures NumberToWords(100) == "100"
  {
    assert DigitChar(0) == '0' && DigitChar(1) == '1';
    assert NatToString(1) == "1";
    assert NatToString(10) == NatToString(1) + [DigitChar(0)];
    assert NatToString(100) == NatToString(10) + [DigitChar(0)];
  }

  /** Below 100 no two numbers get the same words: the amount in words names one amount. */
  lemma NumberToWordsInjective(m: int, n: int)
    requires 0 <= m < 100 && 0 <= n < 100 && m != n
    ensures NumberToWords(m) != NumberToWords(n)
  {
    if m < 20 && n < 20 {
      SmallWordsDistinct(m, n);
    } else if m < 20 {
      SmallWordIsNoDecade(m, n);
    } else if n < 20 {
      SmallWordIsNoDecade(n, m);
    } else {
      DecadeWordsDistinct(m, n);
    }
  }

  /** The words of 0 .. 19 are the value of a lookup and are pairwise different. */
  function SmallWord(n: int): string
    requires 0 <= n < 20
  {
    if n == 0 then "zéro" else if n < 10 then Ones[n] else Teens[n - 10]
  }

  lemma SmallWordsDistinct(m: int, n: int)
    requires 0 <= m < 20 && 0 <= n < 20 && m != n
    ensures NumberToWords(m) != NumberToWords(n)
  {
    assert NumberToWords(m) == SmallWord(m) && NumberToWords(n) == SmallWord(n);
    SmallWordsTableDistinct();
  }

  lemma SmallWordsTableDistinct()
    ensures forall i, j :: 0 <= i < j < 20 ==> SmallWord(i) != SmallWord(j)
  {
  }

  /** `a` and `w` agree on their first four characters. */
  predicate SameHead(a: string, w: string)
  {
    |a| >= 4 && |w| >= 4 && a[0] == w[0] && a[1] == w[1] && a[2] == w[2] && a[3] == w[3]
  }

  /** From 20 on the words are the tens word followed by the unit part. */
  lemma DecadeWord(n: int)
    requires 20 <= n < 100
    ensures NumberToWords(n) == Tens[n / 10] + Unit(n % 10)
    ensures |Tens[n / 10]| >= 5 && SameHead(Tens[n / 10], NumberToWords(n))
  {
  }

  /** No word of 0 .. 19 starts with a tens word. */
  lemma SmallWordIsNoDecade(m: int, n: int)
    requires 0 <= m < 20 && 20 <= n < 100
    ensures NumberToWords(m) != NumberToWords(n)
  {
    DecadeWord(n);
    assert NumberToWords(m) == SmallWord(m);
    SmallWordsStartNoTens(m, n / 10);
  }

  /** A word of 0 .. 19 at least as long as a tens word differs from it in the first four characters. */
  lemma SmallWordsStartNoTens(i: int, t: int)
    requires 0 <= i < 20 && 2 <= t < 10
    ensures |SmallWord(i)| < |Tens[t]| || !SameHead(Tens[t], SmallWord(i))
  {
  }

  /** Two numbers from 20 on get different words. */
  lemma DecadeWordsDistinct(m: int, n: int)
    requires 20 <= m < 100 && 20 <= n < 100 && m != n
    ensures NumberToWords(m) != NumberToWords(n)
  {
    DecadeWord(m);
    DecadeWord(n);
    var t, u := m / 10, n / 10;
    if t == u {
      UnitsDistinct(m % 10, n % 10);
      SuffixAfter(Tens[t], Unit(m % 10));
      SuffixAfter(Tens[t], Unit(n % 10));
    } else if t < u {
      TensWordsDistinct(t, u, m % 10, n % 10);
    } else {
      TensWordsDistinct(u, t, n % 10, m % 10);
    }
  }

  lemma SuffixAfter(a: string, b: string)
    ensures (a + b)[|a|..] == b
  {
  }

  lemma UnitsDistinct(x: int, y: int)
    requires 0 <= x < 10 && 0 <= y < 10 && x != y
    ensures Unit(x) != Unit(y)
  {
    OnesTableDistinct();
    if x != 0 && y != 0 {
      SuffixAfter("-", Ones[x]);
      SuffixAfter("-", Ones[y]);
    }
  }

  lemma OnesTableDistinct()
    ensures forall i, j :: 1 <= i < j < 10 ==> Ones[i] != Ones[j]
  {
  }

  /** Words of two different decades differ: only "soixante" and "quatre-vingt"
      share their head with another tens word, which adds "-dix", and no unit
      part begins with "-dix". */
  lemma TensWordsDistinct(t: int, u: int, x: int, y: int)
    requires 2 <= t < u < 10 && 0 <= x < 10 && 0 <= y < 10
    ensures Tens[t] + Unit(x) != Tens[u] + Unit(y)
  {
    TensLong(t);
    TensLong(u);
    HeadOfConcat(Tens[t], Unit(x));
    HeadOfConcat(Tens[u], Unit(y));
    if SameHead(Tens[t], Tens[u]) {
      TensHeads(t, u);
      assert Tens[u] + Unit(y) == Tens[t] + ("-dix" + Unit(y));
      SuffixAfter(Tens[t], Unit(x));
      SuffixAfter(Tens[t], "-dix" + Unit(y));
      OnesAreNoDix(x, y);
    }
  }

  lemma HeadOfConcat(a: string, b: string)
    requires |a| >= 4
    ensures SameHead(a, a + b)
  {
  }

  lemma TensLong(t: int)
    requires 2 <= t < 10
    ensures |Tens[t]| >= 5
  {
  }

  /** Tens words sharing their first four characters: "soixante" and
      "soixante-dix", "quatre-vingt" and "quatre-vingt-dix". */
  lemma TensHeads(t: int, u: int)
    requires 2 <= t < u < 10 && SameHead(Tens[t], Tens[u])
    ensures Tens[u] == Tens[t] + "-dix"
  {
    assert (t == 6 && u == 7) || (t == 8 && u == 9);
    TensWithDix();
  }

  lemma TensWithDix()
    ensures Tens[7] == Tens[6] + "-dix" && Tens[9] == Tens[8] + "-dix"
  {
  }

  lemma OnesAreNoDix(x: int, y: int)
    requires 0 <= x < 10 && 0 <= y < 10
    ensures Unit(x) != "-dix" + Unit(y)
  {
    if x != 0 {
      OnesNoDi(x);
      assert |Unit(x)| == |Ones[x]| + 1;
      assert |Ones[x]| >= 3 ==> Unit(x)[1] == Ones[x][0] && Unit(x)[2] == Ones[x][1];
    }
  }

  lemma OnesNoDi(x: int)
    requires 1 <= x < 10
    ensures !(|Ones[x]| >= 3 && Ones[x][0] == 'd' && Ones[x][1] == 'i')
  {
  }

  // ---------------------------------------------------------------- PDF layout

  function Title(t: DocumentType): string
  {
    if t == Invoice then "FACTURE" else "DEVIS"
  }

  function ShowsVatColumn(s: Settings): bool
  {
    s.enableVAT && s.variableVATPerLine
  }

  /** Issuer, client and document blocks at their fixed positions. */
  function HeaderCmds(d: Document): seq<TextCmd>
  {
    [ TextCmd([Lit(Title(d.documentType))], 20, 20),
      TextCmd([Lit("Émetteur:")], 20, 30),
      TextCmd([Lit(d.company.name)], 20, 38),
      TextCmd([Lit(d.company.address)], 20, 46),
      TextCmd([Lit("Téléphone: " + d.company.phone)], 20, 54),
      TextCmd([Lit("Email: " + d.company.email)], 20, 62),
      TextCmd([Lit("SIRET: " + d.company.siret)], 20, 70),
      TextCmd([Lit("RIB: " + d.company.rib)], 20, 78),
      TextCmd([Lit("Client:")], 100, 30),
      TextCmd([Lit(OrNA(d.client.name))], 100, 38),
      TextCmd([Lit(OrNA(d.client.address))], 100, 46),
      TextCmd([Lit("SIRET: " + OrNA(d.client.siret))], 100, 54),
      TextCmd([Lit((if d.documentType == Invoice then "Facture" else "Devis") + " N°: " + d.invoiceNumber)], 20, 90),
      TextCmd([Lit("Date: " + d.invoiceDate)], 20, 98) ]
  }

  function DeliveryCmds(d: Document): seq<TextCmd>
  {
    if d.deliveryDate != "" then [TextCmd([Lit("Date de livraison: " + d.deliveryDate)], 20, 106)] else []
  }

  function TableHeadCmds(showVat: bool): seq<TextCmd>
  {
    [TextCmd([Lit("Description")], 20, 120), TextCmd([Lit("Qté")], 100, 120), TextCmd([Lit("Prix Unit. HT")], 120, 120)]
    + (if showVat then [TextCmd([Lit("TVA %")], 150, 120)] else [])
    + [TextCmd([Lit("Total HT")], 170, 120)]
  }

  /** The line on which item row `i` is drawn: one table, no page break. */
  function RowY(i: nat): int
  {
    130 + 10 * i
  }

  function RowWidth(showVat: bool): nat
  {
    if showVat then 5 else 4
  }

  function RowCmds(it: Item, y: int, showVat: bool, currency: string): (r: seq<TextCmd>)
    ensures |r| == RowWidth(showVat)
  {
    [ TextCmd([Lit(OrNA(it.description))], 20, y),
      TextCmd([Lit(IntToString(it.quantity))], 100, y),
      TextCmd([Fixed2(it.unitPrice), Lit(" " + currency)], 120, y) ]
    + (if showVat then [TextCmd([Lit(IntToString(it.vatRate) + "%")], 150, y)] else [])
    + [TextCmd([Fixed2(it.totalHT), Lit(" " + currency)], 170, y)]
  }

  function Rows(items: seq<Item>, showVat: bool, currency: string): seq<TextCmd>
  {
    if items == [] then []
    else Rows(items[..|items| - 1], showVat, currency) + RowCmds(items[|items| - 1], RowY(|items| - 1), showVat, currency)
  }

  /** The totals block below the last row: VAT and stamp lines only when switched on. */
  function TotalsCmds(t: Totals, s: Settings, currency: string, rows: nat): seq<TextCmd>
  {
    var top := RowY(rows) + 10;
    var v := if s.enableVAT then 1 else 0;
    var f := if s.enableFiscalStamp then 1 else 0;
    [TextCmd([Lit("Total HT: "), Fixed2(t.totalHT), Lit(" " + currency)], 140, top)]
    + (if s.enableVAT then [TextCmd([Lit("TVA: "), Fixed2(t.totalVAT), Lit(" " + currency)], 140, top + 10)] else [])
    + (if s.enableFiscalStamp then [TextCmd([Lit("Timbre Fiscal: "), Fixed2(t.fiscalStamp), Lit(" " + currency)], 140, top + 10 * (v + 1))] else [])
    + [ TextCmd([Lit("Total TTC: "), Fixed2(t.totalTTC), Lit(" " + currency)], 140, top + 10 * (v + f + 1)),
        TextCmd([Lit("Montant en lettres: " + NumberToWords(t.totalTTC.Floor) + " dinars et "), Millimes(t.totalTTC), Lit(" millimes")], 20, top + 10 * (v + f + 2)) ]
  }

  /** Every text command of the generated document, in drawing order. */
  function Layout(d: Document): seq<TextCmd>
  {
    HeaderCmds(d) + DeliveryCmds(d) + TableHeadCmds(ShowsVatColumn(d.settings))
    + Rows(d.items, ShowsVatColumn(d.settings), d.currency)
    + TotalsCmds(CalculateTotals(d.items, d.settings), d.settings, d.currency, |d.items|)
  }

  function FileName(d: Document): string
  {
    TypeName(d.documentType) + "_" + d.invoiceNumber + "_" + d.invoiceDate + ".pdf"
  }

  /** The saved file is named by the document type, then `_` and the number, and ends in ".pdf". */
  lemma FileNameShape(d: Document)
    ensures var f, p := FileName(d), TypeName(d.documentType) + "_";
            |f| >= |p| + |d.invoiceNumber| + 5
            && f[..|p|] == p
            && f[|p|..|p| + |d.invoiceNumber|] == d.invoiceNumber
            && f[|f| - 4..] == ".pdf"
  {
    var p := TypeName(d.documentType) + "_";
    var q := p + d.invoiceNumber;
    var f := FileName(d);
    assert f == q + ("_" + d.invoiceDate + ".pdf");
    assert f[..|q|] == q;
    assert q[..|p|] == p && q[|p|..] == d.invoiceNumber;
    assert f[|f| - 4..] == ".pdf";
  }

  lemma {:induction false} RowsLength(items: seq<Item>, showVat: bool, currency: string)
    ensures |Rows(items, showVat, currency)| == RowWidth(showVat) * |items|
    decreases |items|
  {
    if items != [] {
      RowsLength(items[..|items| - 1], showVat, currency);
    }
  }

  /** Cell `k` of row `i` is the `k`-th command of that row's block, drawn at `RowY(i)`. */
  lemma {:induction false} RowAt(items: seq<Item>, showVat: bool, currency: string, i: nat, k: nat)
    requires i < |items| && k < RowWidth(showVat)
    ensures RowWidth(showVat) * i + k < |Rows(items, showVat, currency)|
    ensures Rows(items, showVat, currency)[RowWidth(showVat) * i + k] == RowCmds(items[i], RowY(i), showVat, currency)[k]
    ensures Rows(items, showVat, currency)[RowWidth(showVat) * i + k].y == RowY(i)
    decreases |items|
  {
    var w := RowWidth(showVat);
    var front := items[..|items| - 1];
    RowsLength(front, showVat, currency);
    if i < |items| - 1 {
      RowAt(front, showVat, currency, i, k);
      assert front[i] == items[i];
    }
  }

  /** Where row cells can land: below the table head, in the five table columns,
      and in the VAT column only when it is shown. */
  lemma {:induction false} RowsPlacement(items: seq<Item>, showVat: bool, currency: string)
    ensures forall c :: c in Rows(items, showVat, currency) ==>
      c.y >= 130 && (c.x == 20 || c.x == 100 || c.x == 120 || c.x == 150 || c.x == 170)
      && (c.x == 150 ==> showVat)
    decreases |items|
  {
    if items != [] {
      RowsPlacement(items[..|items| - 1], showVat, currency);
    }
  }

  /** The totals block sits below the rows, at x = 140 except the words line at x = 20. */
  lemma TotalsPlacement(t: Totals, s: Settings, currency: string, rows: nat)
    ensures forall c :: c in TotalsCmds(t, s, currency, rows) ==>
      c.y > RowY(rows) && (c.x == 140 || (c.x == 20 && c.y >= RowY(rows) + 30))
  {
  }

  /** The issuer and document blocks sit at x = 20 and the client block at x = 100, above y = 100. */
  lemma HeaderPlacement(d: Document)
    ensures forall c :: c in HeaderCmds(d) ==> (c.x == 20 || c.x == 100) && c.y <= 98
  {
    var h := HeaderCmds(d);
    assert forall i :: 0 <= i < |h| ==> (h[i].x == 20 || h[i].x == 100) && h[i].y <= 98;
  }

  lemma DeliveryPlacement(d: Document)
    ensures forall c :: c in DeliveryCmds(d) ==> c.x == 20 && c.y == 106
  {
  }

  /** The table head is the line y = 120; its "TVA %" cell is the only one at x = 150. */
  lemma TableHeadPlacement(showVat: bool)
    ensures forall c :: c in TableHeadCmds(showVat) ==> c.y == 120 && c.x != 140 && (c.x == 150 ==> showVat)
  {
  }

  /** Each part of the layout in one place. */
  lemma LayoutParts(d: Document)
    ensures var showVat := ShowsVatColumn(d.settings);
      forall c :: c in Layout(d) <==>
        c in HeaderCmds(d) || c in DeliveryCmds(d) || c in TableHeadCmds(showVat)
        || c in Rows(d.items, showVat, d.currency)
        || c in TotalsCmds(CalculateTotals(d.items, d.settings), d.settings, d.currency, |d.items|)
  {
  }

  predicate StartsWithLabel(c: TextCmd, caption: string)
  {
    |c.text| > 0 && c.text[0] == Lit(caption)
  }

  /** The VAT line is the totals line starting with "TVA: ", the stamp line the one
      starting with "Timbre Fiscal: "; each is there exactly when switched on. */
  lemma TotalsLabels(t: Totals, s: Settings, currency: string, rows: nat)
    ensures forall c :: c in TotalsCmds(t, s, currency, rows) && StartsWithLabel(c, "TVA: ") ==> s.enableVAT
    ensures forall c :: c in TotalsCmds(t, s, currency, rows) && StartsWithLabel(c, "Timbre Fiscal: ") ==> s.enableFiscalStamp
    ensures s.enableVAT ==> exists c :: c in TotalsCmds(t, s, currency, rows) && c.x == 140 && StartsWithLabel(c, "TVA: ")
    ensures s.enableFiscalStamp ==> exists c :: c in TotalsCmds(t, s, currency, rows) && c.x == 140 && StartsWithLabel(c, "Timbre Fiscal: ")
  {
    assert Lit("Total HT: ") != Lit("TVA: ") && Lit("Total TTC: ") != Lit("TVA: ");
    assert Lit("Total HT: ") != Lit("Timbre Fiscal: ") && Lit("Total TTC: ") != Lit("Timbre Fiscal: ");
    assert Lit("TVA: ") != Lit("Timbre Fiscal: ");
    var top := RowY(rows) + 10;
    var v := if s.enableVAT then 1 else 0;
    if s.enableVAT {
      var c := TextCmd([Lit("TVA: "), Fixed2(t.totalVAT), Lit(" " + currency)], 140, top + 10);
      assert c in TotalsCmds(t, s, currency, rows);
    }
    if s.enableFiscalStamp {
      var c := TextCmd([Lit("Timbre Fiscal: "), Fixed2(t.fiscalStamp), Lit(" " + currency)], 140, top + 10 * (v + 1));
      assert c in TotalsCmds(t, s, currency, rows);
    }
  }

  /** A "TVA %" column (header and cells, x = 150) appears iff VAT is on and per line. */
  lemma VatColumnIff(d: Document)
    ensures (exists c :: c in Layout(d) && c.x == 150) <==> ShowsVatColumn(d.settings)
  {
    var showVat := ShowsVatColumn(d.settings);
    LayoutParts(d);
    HeaderPlacement(d);
    DeliveryPlacement(d);
    TableHeadPlacement(showVat);
    RowsPlacement(d.items, showVat, d.currency);
    TotalsPlacement(CalculateTotals(d.items, d.settings), d.settings, d.currency, |d.items|);
    if showVat {
      var c := TextCmd([Lit("TVA %")], 150, 120);
      assert c in TableHeadCmds(showVat);
      assert c in Layout(d);
    }
  }

  /** The delivery-date line (at 20, 106) appears iff a delivery date was entered. */
  lemma DeliveryLineIff(d: Document)
    ensures (exists c :: c in Layout(d) && c.x == 20 && c.y == 106) <==> d.deliveryDate != ""
  {
    LayoutParts(d);
    HeaderPlacement(d);
    DeliveryPlacement(d);
    TableHeadPlacement(ShowsVatColumn(d.settings));
    RowsPlacement(d.items, ShowsVatColumn(d.settings), d.currency);
    TotalsPlacement(CalculateTotals(d.items, d.settings), d.settings, d.currency, |d.items|);
    if d.deliveryDate != "" {
      var c := TextCmd([Lit("Date de livraison: " + d.deliveryDate)], 20, 106);
      assert c in DeliveryCmds(d);
      assert c in Layout(d);
    }
  }

  /** The "TVA:" total line appears iff VAT is switched on. */
  lemma VatTotalLineIff(d: Document)
    ensures (exists c :: c in Layout(d) && c.x == 140 && StartsWithLabel(c, "TVA: ")) <==> d.settings.enableVAT
  {
    LayoutParts(d);
    HeaderPlacement(d);
    DeliveryPlacement(d);
    TableHeadPlacement(ShowsVatColumn(d.settings));
    RowsPlacement(d.items, ShowsVatColumn(d.settings), d.currency);
    TotalsLabels(CalculateTotals(d.items, d.settings), d.settings, d.currency, |d.items|);
  }

  /** The "Timbre Fiscal:" line appears iff the stamp is switched on. */
  lemma StampLineIff(d: Document)
    ensures (exists c :: c in Layout(d) && c.x == 140 && StartsWithLabel(c, "Timbre Fiscal: ")) <==> d.settings.enableFiscalStamp
  {
    LayoutParts(d);
    HeaderPlacement(d);
    DeliveryPlacement(d);
    TableHeadPlacement(ShowsVatColumn(d.settings));
    RowsPlacement(d.items, ShowsVatColumn(d.settings), d.currency);
    TotalsLabels(CalculateTotals(d.items, d.settings), d.settings, d.currency, |d.items|);
  }

  // ---------------------------------------------------------------- page state

  /** The editor page's state hooks. */
  class Editor {
    var documentType: DocumentType
    var currency: string
    var invoiceNumber: string
    var invoiceDate: string
    var deliveryDate: string
    var settings: Settings
    var company: Company
    var client: Client
    var items: seq<Item>

    /** The rows always have current line totals and never run out. */
    ghost predicate Valid()
      reads this
    {
      |items| > 0 && LineTotalsHold(items)
    }

    function Snapshot(): Document
      reads this
    {
      Document(documentType, invoiceNumber, invoiceDate, deliveryDate, currency, settings, company, client, items)
    }

    /** The page as first rendered on `today` (an ISO date). */
    constructor (today: string)
      ensures Valid()
      ensures documentType == Invoice && currency == "TND" && invoiceNumber == "2024-001"
      ensures invoiceDate == today && deliveryDate == ""
      ensures settings == DefaultSettings && company == DefaultCompany && client == Client("", "", "")
      ensures items == [BlankItem(DefaultSettings.defaultVATRate)]
    {
      documentType := Invoice;
      currency := "TND";
      invoiceNumber := "2024-001";
      invoiceDate := today;
      deliveryDate := "";
      settings := DefaultSettings;
      company := DefaultCompany;
      client := Client("", "", "");
      items := [BlankItem(DefaultSettings.defaultVATRate)];
    }

    method AddItem()
      requires Valid()
      modifies this`items
      ensures Valid()
      ensures items == AddedItems(old(items), settings.defaultVATRate)
    {
      items := items + [BlankItem(settings.defaultVATRate)];
    }

    method RemoveItem(index: int)
      requires Valid()
      modifies this`items
      ensures Valid()
      ensures items == RemovedItems(old(items), index)
    {
      if |items| > 1 {
        items := RemoveIndex(items, index);
      }
    }

    method UpdateItem(index: nat, e: Edit)
      requires Valid() && index < |items|
      modifies this`items
      ensures Valid()
      ensures items == UpdatedItems(old(items), index, e)
    {
      var newItems := items;
      newItems := newItems[index := EditedItem(newItems[index], e)];
      items := newItems;
    }

    /** The totals block of `generatePDF`, drawn below the last row at `y`. */
    static method TotalsBlock(t: Totals, s: Settings, currency: string, y0: int, ghost rows: nat) returns (cmds: seq<TextCmd>)
      requires y0 == RowY(rows)
      ensures cmds == TotalsCmds(t, s, currency, rows)
    {
      var y := y0 + 10;
      cmds := [TextCmd([Lit("Total HT: "), Fixed2(t.totalHT), Lit(" " + currency)], 140, y)];
      if s.enableVAT {
        y := y + 10;
        cmds := cmds + [TextCmd([Lit("TVA: "), Fixed2(t.totalVAT), Lit(" " + currency)], 140, y)];
      }
      if s.enableFiscalStamp {
        y := y + 10;
        cmds := cmds + [TextCmd([Lit("Timbre Fiscal: "), Fixed2(t.fiscalStamp), Lit(" " + currency)], 140, y)];
      }
      y := y + 10;
      cmds := cmds + [TextCmd([Lit("Total TTC: "), Fixed2(t.totalTTC), Lit(" " + currency)], 140, y)];
      y := y + 10;
      cmds := cmds + [TextCmd([Lit("Montant en lettres: " + NumberToWords(t.totalTTC.Floor) + " dinars et "), Millimes(t.totalTTC), Lit(" millimes")], 20, y)];
    }

    /** The `forEach` over the items: one row of cells per item, `y` moving down by 10. */
    static method DrawRows(items: seq<Item>, showVat: bool, currency: string) returns (cmds: seq<TextCmd>, y: int)
      ensures cmds == Rows(items, showVat, currency)
      ensures y == RowY(|items|)
    {
      cmds := [];
      y := 130;
      var i := 0;
      while i < |items|
        invariant 0 <= i <= |items|
        invariant y == RowY(i)
        invariant cmds == Rows(items[..i], showVat, currency)
      {
        assert items[..i + 1][..i] == items[..i];
        cmds := cmds + RowCmds(items[i], y, showVat, currency);
        y := y + 10;
        i := i + 1;
      }
      assert items[..i] == items;
    }

    /** `generatePDF`: draws the document with a moving `y` cursor and names the file. */
    method GeneratePdf() returns (cmds: seq<TextCmd>, fileName: string)
      ensures cmds == Layout(Snapshot())
      ensures fileName == FileName(Snapshot())
    {
      var d := Snapshot();
      var t := CalculateTotals(items, settings);
      var showVat := settings.enableVAT && settings.variableVATPerLine;
      var rows, y := DrawRows(items, showVat, currency);
      var tail := TotalsBlock(t, settings, currency, y, |items|);
      cmds := HeaderCmds(d) + DeliveryCmds(d) + TableHeadCmds(showVat) + rows + tail;
      fileName := TypeName(documentType) + "_" + invoiceNumber + "_" + invoiceDate + ".pdf";
    }
  }
}
