/** The billing dashboard: the invoice list with its search and filters, the
    revenue aggregates, numbering of new documents, deletion and status change. */
module Billing {
  import opened Strings
  import opened Seqs
  import QuickCreate

  /** A listed document; `status` is one of draft, sent, paid, overdue and
      cancelled in the data the page makes, `docType` one of invoice and quote. */
  datatype Invoice = Invoice(
    id: string,
    number: string,
    client: string,
    amount: real,
    status: string,
    dueDate: string,
    createdDate: string,
    docType: string)

  /** The records the dashboard starts with. */
  const SampleInvoices := [
    Invoice("1", "2024-001", "Startup Tech SARL", 2500.0, "paid", "2024-12-15", "2024-11-15", "invoice"),
    Invoice("2", "2024-002", "Cabinet Avocat", 1200.0, "sent", "2024-12-20", "2024-11-20", "invoice"),
    Invoice("3", "2024-003", "Société Import", 3800.0, "overdue", "2024-12-10", "2024-11-10", "invoice"),
    Invoice("4", "DEV-2024-001", "Freelance Design", 850.0, "draft", "2024-12-25", "2024-11-25", "quote")]

  // ---------------------------------------------------------------- status lookups

  /** The statuses with a label of their own. */
  predicate KnownStatus(status: string)
  {
    status == "paid" || status == "sent" || status == "overdue" || status == "cancelled"
  }

  /** `getStatusText`. */
  function StatusText(status: string): (r: string)
    ensures r == "Brouillon" <==> !KnownStatus(status)
  {
    match status
    case "paid" => "Payée"
    case "sent" => "Envoyée"
    case "overdue" => "En retard"
    case "cancelled" => "Annulée"
    case _ => "Brouillon"
  }

  /** `getStatusColor`. */
  function StatusColor(status: string): (r: string)
    ensures r == "bg-yellow-100 text-yellow-800" <==> !KnownStatus(status)
  {
    match status
    case "paid" => "bg-green-100 text-green-800"
    case "sent" => "bg-blue-100 text-blue-800"
    case "overdue" => "bg-red-100 text-red-800"
    case "cancelled" => "bg-gray-100 text-gray-800"
    case _ => "bg-yellow-100 text-yellow-800"
  }

  /** Label and colour split the statuses the same way: two statuses share a
      label exactly when they share a colour, and known statuses never share. */
  lemma StatusLookupsAgree(s: string, t: string)
    ensures StatusText(s) == StatusText(t) <==> StatusColor(s) == StatusColor(t)
    ensures KnownStatus(s) && KnownStatus(t) ==> (StatusText(s) == StatusText(t) <==> s == t)
  {
  }

  // ---------------------------------------------------------------- filtering

  /** The test of `filteredInvoices`: search on client or number, then the two selects. */
  predicate Matches(inv: Invoice, searchTerm: string, statusFilter: string, typeFilter: string)
  {
    (Contains(Lower(inv.client), Lower(searchTerm)) || Contains(Lower(inv.number), Lower(searchTerm)))
    && (statusFilter == "all" || inv.status == statusFilter)
    && (typeFilter == "all" || inv.docType == typeFilter)
  }

  function MatchesAll(searchTerm: string, statusFilter: string, typeFilter: string): Invoice -> bool
  {
    inv => Matches(inv, searchTerm, statusFilter, typeFilter)
  }

  function FilteredInvoices(invoices: seq<Invoice>, searchTerm: string, statusFilter: string, typeFilter: string): seq<Invoice>
  {
    Filter(invoices, MatchesAll(searchTerm, statusFilter, typeFilter))
  }

  /** The search part of the test asks for an occurrence of the lowered term. */
  lemma MatchesIff(inv: Invoice, searchTerm: string, statusFilter: string, typeFilter: string)
    ensures Matches(inv, searchTerm, statusFilter, typeFilter) <==>
      (Occurs(Lower(inv.client), Lower(searchTerm))
       || Occurs(Lower(inv.number), Lower(searchTerm)))
      && (statusFilter == "all" || inv.status == statusFilter)
      && (typeFilter == "all" || inv.docType == typeFilter)
  {
    var selects := (statusFilter == "all" || inv.status == statusFilter) && (typeFilter == "all" || inv.docType == typeFilter);
    var client, number, term := Lower(inv.client), Lower(inv.number), Lower(searchTerm);
    assert Matches(inv, searchTerm, statusFilter, typeFilter) == ((Contains(client, term) || Contains(number, term)) && selects);
    ContainsIff(client, term);
    ContainsIff(number, term);
  }

  /** A record is shown iff it is listed, the lowered search term occurs in its
      lowered client or number, and it passes both selects. */
  lemma FilteredIff(invoices: seq<Invoice>, searchTerm: string, statusFilter: string, typeFilter: string, inv: Invoice)
    ensures inv in FilteredInvoices(invoices, searchTerm, statusFilter, typeFilter) <==>
      inv in invoices
      && (Occurs(Lower(inv.client), Lower(searchTerm))
          || Occurs(Lower(inv.number), Lower(searchTerm)))
      && (statusFilter == "all" || inv.status == statusFilter)
      && (typeFilter == "all" || inv.docType == typeFilter)
  {
    FilterMembers(invoices, MatchesAll(searchTerm, statusFilter, typeFilter));
    assert MatchesAll(searchTerm, statusFilter, typeFilter)(inv) == Matches(inv, searchTerm, statusFilter, typeFilter);
    MatchesIff(inv, searchTerm, statusFilter, typeFilter);
  }

  /** The shown records keep the list's order. */
  lemma FilteredKeepsOrder(invoices: seq<Invoice>, searchTerm: string, statusFilter: string, typeFilter: string)
    ensures IsSubsequence(FilteredInvoices(invoices, searchTerm, statusFilter, typeFilter), invoices)
  {
    FilterIsSubsequence(invoices, MatchesAll(searchTerm, statusFilter, typeFilter));
  }

  /** With an empty search and both selects on 'all' every record is shown. */
  lemma UnfilteredShowsAll(invoices: seq<Invoice>)
    ensures FilteredInvoices(invoices, "", "all", "all") == invoices
  {
    forall inv | inv in invoices ensures Matches(inv, "", "all", "all") {
      ContainsEmpty(Lower(inv.client));
    }
    FilterAll(invoices, MatchesAll("", "all", "all"));
  }

  // ---------------------------------------------------------------- aggregates

  /** `reduce((sum, invoice) => sum + invoice.amount, 0)`. */
  function SumAmounts(invoices: seq<Invoice>): real
  {
    if invoices == [] then 0.0 else invoices[0].amount + SumAmounts(invoices[1..])
  }

  /** `invoices.filter(inv => inv.status === status)` summed. */
  function AmountWithStatus(invoices: seq<Invoice>, status: string): real
  {
    SumAmounts(Filter(invoices, StatusIs(status)))
  }

  function StatusIs(status: string): Invoice -> bool
  {
    (inv: Invoice) => inv.status == status
  }

  /** The records none of the paid, pending and overdue cards counts. */
  const OutsideCards: Invoice -> bool := (inv: Invoice) => inv.status != "paid" && inv.status != "sent" && inv.status != "overdue"

  lemma {:induction false} SumAmountsConcat(a: seq<Invoice>, b: seq<Invoice>)
    ensures SumAmounts(a + b) == SumAmounts(a) + SumAmounts(b)
    decreases |a|
  {
    if a == [] {
      assert a + b == b;
    } else {
      assert (a + b)[0] == a[0] && (a + b)[1..] == a[1..] + b;
      SumAmountsConcat(a[1..], b);
    }
  }

  lemma SumAmountsCons(inv: Invoice, rest: seq<Invoice>)
    ensures SumAmounts([inv] + rest) == inv.amount + SumAmounts(rest)
  {
    assert ([inv] + rest)[1..] == rest;
  }

  /** The total splits into the three cards and the rest. */
  lemma {:induction false} TotalSplitsByStatus(invoices: seq<Invoice>)
    ensures SumAmounts(invoices) == AmountWithStatus(invoices, "paid") + AmountWithStatus(invoices, "sent")
                                    + AmountWithStatus(invoices, "overdue") + SumAmounts(Filter(invoices, OutsideCards))
    decreases |invoices|
  {
    if invoices != [] {
      var h := invoices[0];
      var t := invoices[1..];
      TotalSplitsByStatus(t);
      assert invoices == [h] + t;
      FilterConcat([h], t, StatusIs("paid"));
      FilterConcat([h], t, StatusIs("sent"));
      FilterConcat([h], t, StatusIs("overdue"));
      FilterConcat([h], t, OutsideCards);
      var paid := Filter(t, StatusIs("paid"));
      var sent := Filter(t, StatusIs("sent"));
      var overdue := Filter(t, StatusIs("overdue"));
      var rest := Filter(t, OutsideCards);
      if h.status == "paid" {
        SumAmountsCons(h, paid);
        assert [] + sent == sent && [] + overdue == overdue && [] + rest == rest;
      } else if h.status == "sent" {
        SumAmountsCons(h, sent);
        assert [] + paid == paid && [] + overdue == overdue && [] + rest == rest;
      } else if h.status == "overdue" {
        SumAmountsCons(h, overdue);
        assert [] + paid == paid && [] + sent == sent && [] + rest == rest;
      } else {
        SumAmountsCons(h, rest);
        assert [] + paid == paid && [] + sent == sent && [] + overdue == overdue;
      }
    }
  }

  lemma {:induction false} SumNonNegative(invoices: seq<Invoice>)
    requires forall i :: 0 <= i < |invoices| ==> invoices[i].amount >= 0.0
    ensures SumAmounts(invoices) >= 0.0
    decreases |invoices|
  {
    if invoices != [] {
      SumNonNegative(invoices[1..]);
    }
  }

  lemma FilterNonNegative(invoices: seq<Invoice>, p: Invoice -> bool)
    requires forall i :: 0 <= i < |invoices| ==> invoices[i].amount >= 0.0
    ensures SumAmounts(Filter(invoices, p)) >= 0.0
  {
    var f := Filter(invoices, p);
    FilterMembers(invoices, p);
    assert forall i :: 0 <= i < |f| ==> f[i] in invoices;
    SumNonNegative(f);
  }

  /** With no negative amount, paid + pending + overdue never exceeds the total. */
  lemma CardsWithinTotal(invoices: seq<Invoice>)
    requires forall i :: 0 <= i < |invoices| ==> invoices[i].amount >= 0.0
    ensures AmountWithStatus(invoices, "paid") >= 0.0 && AmountWithStatus(invoices, "sent") >= 0.0
    ensures AmountWithStatus(invoices, "overdue") >= 0.0
    ensures AmountWithStatus(invoices, "paid") + AmountWithStatus(invoices, "sent") + AmountWithStatus(invoices, "overdue")
            <= SumAmounts(invoices)
  {
    TotalSplitsByStatus(invoices);
    FilterNonNegative(invoices, StatusIs("paid"));
    FilterNonNegative(invoices, StatusIs("sent"));
    FilterNonNegative(invoices, StatusIs("overdue"));
    FilterNonNegative(invoices, OutsideCards);
  }

  /** The four cards for the records the page starts with. */
  lemma SampleCards()
    ensures SumAmounts(SampleInvoices) == 8350.0
    ensures AmountWithStatus(SampleInvoices, "paid") == 2500.0
    ensures AmountWithStatus(SampleInvoices, "sent") == 1200.0
    ensures AmountWithStatus(SampleInvoices, "overdue") == 3800.0
  {
  }

  // ---------------------------------------------------------------- numbering

  /** `String(k).padStart(3, '0')`. */
  function Pad3(s: string): (r: string)
    ensures |s| >= 3 ==> r == s
    ensures |s| < 3 ==> |r| == 3 && r[3 - |s|..] == s && forall i :: 0 <= i < 3 - |s| ==> r[i] == '0'
  {
    PadStart(s, 3, '0')
  }

  /** Zero padding to three keeps a numeral's value. */
  lemma Pad3Value(d: string)
    requires AllDigits(d)
    ensures |Pad3(d)| >= 3 && AllDigits(Pad3(d)) && DigitsValue(Pad3(d)) == DigitsValue(d)
  {
    PadZerosValue(d, 3);
  }

  /** The template of a number: "DEV-" for a quote, the year, a dash and the padded count. */
  function Numbered(docType: string, year: string, padded: string): string
  {
    (if docType == "quote" then "DEV-" + year else year) + "-" + padded
  }

  /** The number `handleCreateInvoice` gives the next document, from the list length. */
  function DocumentNumber(docType: string, year: nat, count: nat): string
  {
    Numbered(docType, NatToString(year), Pad3(NatToString(count + 1)))
  }

  lemma NumberedPrefix(docType: string, year: string, padded: string)
    requires |year| > 0 && IsDigit(year[0])
    ensures var n := Numbered(docType, year, padded);
            docType == "quote" <==> (|n| >= 4 && n[..4] == "DEV-")
  {
    var n := Numbered(docType, year, padded);
    if docType == "quote" {
      assert n == "DEV-" + (year + "-" + padded);
    } else {
      assert n[0] == year[0];
      assert |n| >= 4 ==> n[..4][0] == n[0];
    }
  }

  lemma NumberedSuffix(docType: string, year: string, padded: string)
    ensures var n := Numbered(docType, year, padded);
            |padded| < |n| && n[|n| - |padded|..] == padded && n[|n| - |padded| - 1] == '-'
  {
    var head := if docType == "quote" then "DEV-" + year else year;
    var n := Numbered(docType, year, padded);
    assert n == (head + "-") + padded;
    assert n[|n| - |padded| - 1] == (head + "-")[|head|];
  }

  /** The number ends in a dash and at least three digits that read as `count + 1`. */
  lemma DocumentNumberSuffix(docType: string, year: nat, count: nat)
    ensures var n := DocumentNumber(docType, year, count);
            var p := Pad3(NatToString(count + 1));
            |p| >= 3 && AllDigits(p) && DigitsValue(p) == count + 1
            && |p| < |n| && n[|n| - |p|..] == p && n[|n| - |p| - 1] == '-'
  {
    var d := NatToString(count + 1);
    NatToStringRoundTrip(count + 1);
    Pad3Value(d);
    NumberedSuffix(docType, NatToString(year), Pad3(d));
  }

  /** The number starts with "DEV-" exactly when the document is a quote. */
  lemma DocumentNumberPrefix(docType: string, year: nat, count: nat)
    ensures var n := DocumentNumber(docType, year, count);
            docType == "quote" <==> (|n| >= 4 && n[..4] == "DEV-")
  {
    NumberedPrefix(docType, NatToString(year), Pad3(NatToString(count + 1)));
  }

  /** The fifth invoice of 2024. */
  lemma InvoiceNumberExample()
    ensures DocumentNumber("invoice", 2024, 4) == "2024-005"
  {
    InvoiceNumberPieces();
    InvoiceNumberText();
  }

  /** The twelfth document of 2025, a quote. */
  lemma QuoteNumberExample()
    ensures DocumentNumber("quote", 2025, 11) == "DEV-2025-012"
  {
    QuoteNumberPieces();
    QuoteNumberText();
  }

  lemma InvoiceNumberPieces()
    ensures DocumentNumber("invoice", 2024, 4) == Numbered("invoice", "2024", "005")
  {
    Numeral2024();
    Padded5();
  }

  lemma InvoiceNumberText()
    ensures Numbered("invoice", "2024", "005") == "2024-005"
  {
  }

  lemma QuoteNumberPieces()
    ensures DocumentNumber("quote", 2025, 11) == Numbered("quote", "2025", "012")
  {
    Numeral2025();
    Padded12();
  }

  lemma QuoteNumberText()
    ensures Numbered("quote", "2025", "012") == "DEV-2025-012"
  {
  }

  lemma Numeral202()
    ensures NatToString(202) == "202"
  {
    assert DigitChar(0) == '0' && DigitChar(2) == '2';
    assert NatToString(2) == "2";
    assert NatToString(20) == NatToString(2) + [DigitChar(0)];
    assert NatToString(202) == NatToString(20) + [DigitChar(2)];
  }

  lemma Numeral2024()
    ensures NatToString(2024) == "2024"
  {
    Numeral202();
    assert DigitChar(4) == '4';
    assert NatToString(2024) == NatToString(202) + [DigitChar(4)];
  }

  lemma Numeral2025()
    ensures NatToString(2025) == "2025"
  {
    Numeral202();
    assert DigitChar(5) == '5';
    assert NatToString(2025) == NatToString(202) + [DigitChar(5)];
  }

  lemma Padded5()
    ensures Pad3(NatToString(5)) == "005"
  {
    Numeral5();
    PadTo3("5");
  }

  lemma Padded12()
    ensures Pad3(NatToString(12)) == "012"
  {
    Numeral12();
    PadTo3("12");
  }

  lemma Numeral5()
    ensures NatToString(5) == "5"
  {
    assert DigitChar(5) == '5';
  }

  lemma Numeral12()
    ensures NatToString(12) == "12"
  {
    assert DigitChar(1) == '1' && DigitChar(2) == '2';
    assert NatToString(1) == "1";
    assert NatToString(12) == NatToString(1) + [DigitChar(2)];
  }

  /** Padding a numeral of one or two digits, one zero at a time. */
  lemma PadTo3(s: string)
    requires 0 < |s| < 3
    ensures Pad3(s) == if |s| == 1 then "00" + s else "0" + s
  {
    var one := ['0'] + s;
    assert PadStart(s, 3, '0') == PadStart(one, 3, '0');
    if |s| == 1 {
      var two := ['0'] + one;
      assert PadStart(one, 3, '0') == PadStart(two, 3, '0');
      assert PadStart(two, 3, '0') == two;
      assert two == "00" + s;
    } else {
      assert PadStart(one, 3, '0') == one;
      assert one == "0" + s;
    }
  }

  /** `handleCreateInvoice(data)`: the record appended for the modal's payload. */
  function NewInvoice(data: QuickCreate.Payload, count: nat, year: nat, now: nat, today: string): (r: Invoice)
    ensures r.status == "draft" && r.client == data.client && r.amount == data.amount
    ensures r.dueDate == data.dueDate && r.docType == data.docType && r.createdDate == today
    ensures r.id == NatToString(now) && r.number == DocumentNumber(data.docType, year, count)
  {
    Invoice(NatToString(now), DocumentNumber(data.docType, year, count), data.client, data.amount,
            "draft", data.dueDate, today, data.docType)
  }

  /** A new draft raises the total by its amount and leaves the three cards alone. */
  lemma CreateRaisesOnlyTotal(invoices: seq<Invoice>, n: Invoice)
    requires n.status == "draft"
    ensures SumAmounts(invoices + [n]) == SumAmounts(invoices) + n.amount
    ensures forall s :: s != "draft" ==> AmountWithStatus(invoices + [n], s) == AmountWithStatus(invoices, s)
  {
    SumAmountsConcat(invoices, [n]);
    forall s | s != "draft" ensures AmountWithStatus(invoices + [n], s) == AmountWithStatus(invoices, s) {
      FilterConcat(invoices, [n], StatusIs(s));
      assert Filter([n], StatusIs(s)) == [];
      assert Filter(invoices, StatusIs(s)) + [] == Filter(invoices, StatusIs(s));
    }
  }

  /** Numbering follows the length, so once one earlier record is deleted the
      next document of the same type and year gets the number of the last created one,
      which is still listed. */
  lemma NumbersRepeatAfterDeletion(invoices: seq<Invoice>, data: QuickCreate.Payload, year: nat, now: nat, today: string,
                                   id: string, later: QuickCreate.Payload, laterNow: nat)
    requires |Deleted(invoices, id)| + 1 == |invoices| && NatToString(now) != id
    requires later.docType == data.docType
    ensures var n := NewInvoice(data, |invoices|, year, now, today);
            var rest := Deleted(invoices + [n], id);
            n in rest && NewInvoice(later, |rest|, year, laterNow, today).number == n.number
  {
    var n := NewInvoice(data, |invoices|, year, now, today);
    var rest := Deleted(invoices + [n], id);
    FilterSnoc(invoices, n, IdIsNot(id));
    assert rest == Deleted(invoices, id) + [n];
    assert rest[|rest| - 1] == n;
  }

  // ---------------------------------------------------------------- delete and status

  function IdIsNot(id: string): Invoice -> bool
  {
    (inv: Invoice) => inv.id != id
  }

  /** `invoices.filter(inv => inv.id !== invoiceId)`. */
  function Deleted(invoices: seq<Invoice>, id: string): (r: seq<Invoice>)
    ensures forall inv: Invoice :: inv in r <==> inv in invoices && inv.id != id
    ensures forall inv: Invoice :: inv.id != id ==> multiset(r)[inv] == multiset(invoices)[inv]
  {
    FilterMembers(invoices, IdIsNot(id));
    FilterCounts(invoices, IdIsNot(id));
    Filter(invoices, IdIsNot(id))
  }

  /** Deletion keeps the other records in their order, and deleting twice is deleting once. */
  lemma DeletedKeepsOrder(invoices: seq<Invoice>, id: string)
    ensures IsSubsequence(Deleted(invoices, id), invoices)
    ensures Deleted(Deleted(invoices, id), id) == Deleted(invoices, id)
  {
    FilterIsSubsequence(invoices, IdIsNot(id));
    FilterAll(Deleted(invoices, id), IdIsNot(id));
  }

  /** Deleting an id no record has changes nothing. */
  lemma DeleteMissingIsNoop(invoices: seq<Invoice>, id: string)
    requires forall i :: 0 <= i < |invoices| ==> invoices[i].id != id
    ensures Deleted(invoices, id) == invoices
  {
    FilterAll(invoices, IdIsNot(id));
  }

  /** `invoices.map(inv => inv.id === invoiceId ? { ...inv, status: newStatus } : inv)`. */
  function StatusChanged(invoices: seq<Invoice>, id: string, status: string): (r: seq<Invoice>)
    ensures |r| == |invoices|
    ensures forall i :: 0 <= i < |r| && invoices[i].id == id ==> r[i] == invoices[i].(status := status)
    ensures forall i :: 0 <= i < |r| && invoices[i].id != id ==> r[i] == invoices[i]
  {
    seq(|invoices|, i requires 0 <= i < |invoices| =>
      if invoices[i].id == id then invoices[i].(status := status) else invoices[i])
  }

  /** A status change moves no money: the total is unchanged, and changing to the same status twice is changing once. */
  lemma {:induction false} StatusChangeKeepsTotal(invoices: seq<Invoice>, id: string, status: string)
    ensures SumAmounts(StatusChanged(invoices, id, status)) == SumAmounts(invoices)
    ensures StatusChanged(StatusChanged(invoices, id, status), id, status) == StatusChanged(invoices, id, status)
    decreases |invoices|
  {
    if invoices != [] {
      var r := StatusChanged(invoices, id, status);
      assert r[1..] == StatusChanged(invoices[1..], id, status);
      StatusChangeKeepsTotal(invoices[1..], id, status);
    }
  }

  // ---------------------------------------------------------------- page state

  /** The dashboard's state: the invoice list and the three filter inputs. */
  class BillingDashboard {
    var invoices: seq<Invoice>
    var searchTerm: string
    var statusFilter: string
    var typeFilter: string

    /** The rows the table shows. */
    function Shown(): seq<Invoice>
      reads this
    {
      FilteredInvoices(invoices, searchTerm, statusFilter, typeFilter)
    }

    constructor ()
      ensures invoices == SampleInvoices
      ensures searchTerm == "" && statusFilter == "all" && typeFilter == "all"
    {
      invoices := SampleInvoices;
      searchTerm := "";
      statusFilter := "all";
      typeFilter := "all";
    }

    /** The search box and the status and type selects. */
    method SetFilters(search: string, status: string, docType: string)
      modifies this`searchTerm, this`statusFilter, this`typeFilter
      ensures searchTerm == search && statusFilter == status && typeFilter == docType
    {
      searchTerm := search;
      statusFilter := status;
      typeFilter := docType;
    }

    /** `handleCreateInvoice`; the clock, the year and today's date are parameters. */
    method CreateInvoice(data: QuickCreate.Payload, year: nat, now: nat, today: string)
      modifies this`invoices
      ensures invoices == old(invoices) + [NewInvoice(data, |old(invoices)|, year, now, today)]
    {
      var number := if data.docType == "quote"
        then "DEV-" + NatToString(year) + "-" + PadStart(NatToString(|invoices| + 1), 3, '0')
        else NatToString(year) + "-" + PadStart(NatToString(|invoices| + 1), 3, '0');
      var newInvoice := Invoice(NatToString(now), number, data.client, data.amount, "draft", data.dueDate, today, data.docType);
      invoices := invoices + [newInvoice];
    }

    /** `handleDeleteInvoice`. */
    method DeleteInvoice(id: string)
      modifies this`invoices
      ensures invoices == Deleted(old(invoices), id)
    {
      invoices := Filter(invoices, IdIsNot(id));
    }

    /** `handleStatusChange`. */
    method ChangeStatus(id: string, status: string)
      modifies this`invoices
      ensures invoices == StatusChanged(old(invoices), id, status)
    {
      invoices := StatusChanged(invoices, id, status);
    }
  }
}
