/** The quick-create modal: a form with a free list of articles, the running
    total `quantity * price`, and on submit a one-page PDF and the payload
    handed to the dashboard. */
module QuickCreate {
  import opened Strings
  import opened Seqs
  import opened Pdf

  datatype Item = Item(description: string, quantity: int, price: real)

  /** The fields the article rows edit through `updateItem(index, field, value)`. */
  datatype Edit = SetDescription(d: string) | SetQuantity(q: int) | SetPrice(p: real)

  /** The form state; `amount` is the untouched initial `''`. */
  datatype FormData = FormData(
    docType: string,
    client: string,
    amount: string,
    dueDate: string,
    description: string,
    items: seq<Item>)

  /** `{ ...formData, amount: totalAmount }`. */
  datatype Payload = Payload(
    docType: string,
    client: string,
    amount: real,
    dueDate: string,
    description: string,
    items: seq<Item>)

  /** The row `addItem` appends and the form starts with. */
  const BlankItem := Item("", 1, 0.0)

  function LineTotal(it: Item): real
  {
    it.quantity as real * it.price
  }

  /** `items.reduce((sum, item) => sum + item.quantity * item.price, 0)`. */
  function TotalAmount(items: seq<Item>): real
  {
    if items == [] then 0.0 else TotalAmount(items[..|items| - 1]) + LineTotal(items[|items| - 1])
  }

  lemma {:induction false} TotalAmountConcat(a: seq<Item>, b: seq<Item>)
    ensures TotalAmount(a + b) == TotalAmount(a) + TotalAmount(b)
    decreases |b|
  {
    if b != [] {
      assert (a + b)[..|a + b| - 1] == a + b[..|b| - 1];
      TotalAmountConcat(a, b[..|b| - 1]);
    } else {
      assert a + b == a;
    }
  }

  /** With no negative quantity or price the total is not negative. */
  lemma {:induction false} TotalAmountNonNegative(items: seq<Item>)
    requires forall i :: 0 <= i < |items| ==> items[i].quantity >= 0 && items[i].price >= 0.0
    ensures TotalAmount(items) >= 0.0
    decreases |items|
  {
    if items != [] {
      TotalAmountNonNegative(items[..|items| - 1]);
    }
  }

  /** `addItem`: one blank article at the end. */
  function AddedItems(items: seq<Item>): (r: seq<Item>)
    ensures |r| == |items| + 1 && r[..|items|] == items
    ensures r[|items|] == BlankItem
  {
    items + [BlankItem]
  }

  /** `{ ...newItems[index], [field]: value }`. */
  function EditedItem(it: Item, e: Edit): (r: Item)
    ensures e.SetDescription? ==> r == Item(e.d, it.quantity, it.price)
    ensures e.SetQuantity? ==> r == Item(it.description, e.q, it.price)
    ensures e.SetPrice? ==> r == Item(it.description, it.quantity, e.p)
  {
    match e
    case SetDescription(d) => it.(description := d)
    case SetQuantity(q) => it.(quantity := q)
    case SetPrice(p) => it.(price := p)
  }

  /** `updateItem(index, field, value)`. */
  function UpdatedItems(items: seq<Item>, index: nat, e: Edit): (r: seq<Item>)
    requires index < |items|
    ensures |r| == |items| && r[index] == EditedItem(items[index], e)
    ensures forall j :: 0 <= j < |items| && j != index ==> r[j] == items[j]
  {
    items[index := EditedItem(items[index], e)]
  }

  /** A blank article adds nothing to the total. */
  lemma AddKeepsTotal(items: seq<Item>)
    ensures TotalAmount(AddedItems(items)) == TotalAmount(items)
  {
    assert AddedItems(items)[..|items|] == items;
  }

  /** The total of a list with one article picked out. */
  lemma TotalAmountAround(a: seq<Item>, x: Item, b: seq<Item>)
    ensures TotalAmount(a + [x] + b) == TotalAmount(a) + LineTotal(x) + TotalAmount(b)
  {
    TotalAmountConcat(a + [x], b);
    assert (a + [x])[..|a|] == a;
  }

  /** Removing article `i` takes its line total off the total. */
  lemma RemoveSubtractsLine(items: seq<Item>, i: int)
    requires 0 <= i < |items|
    ensures TotalAmount(RemoveIndex(items, i)) == TotalAmount(items) - LineTotal(items[i])
  {
    var a, b := items[..i], items[i + 1..];
    SplitAt(items, i);
    TotalAmountAround(a, items[i], b);
    TotalAmountConcat(a, b);
  }

  /** Editing one article changes the total by the change of its line total. */
  lemma UpdateShiftsTotal(items: seq<Item>, i: nat, e: Edit)
    requires i < |items|
    ensures TotalAmount(UpdatedItems(items, i, e))
         == TotalAmount(items) - LineTotal(items[i]) + LineTotal(EditedItem(items[i], e))
  {
    var r := UpdatedItems(items, i, e);
    var a, b := items[..i], items[i + 1..];
    SplitAt(items, i);
    SplitAt(r, i);
    assert r[..i] == a && r[i + 1..] == b;
    TotalAmountAround(a, items[i], b);
    TotalAmountAround(a, r[i], b);
  }

  // ---------------------------------------------------------------- submit

  function Title(docType: string): string
  {
    if docType == "invoice" then "FACTURE" else "DEVIS"
  }

  /** The line of article `i`: its number, description, quantity, price and line total. */
  function ItemLine(i: nat, it: Item): TextCmd
  {
    TextCmd([Lit(NatToString(i + 1) + ". " + it.description + " - Qté: " + IntToString(it.quantity) + " - Prix unitaire: "),
             Fixed2(it.price), Lit(" TND - Total: "), Fixed2(LineTotal(it)), Lit(" TND")],
            10, 60 + 10 * i)
  }

  function ItemLines(items: seq<Item>): seq<TextCmd>
  {
    if items == [] then [] else ItemLines(items[..|items| - 1]) + [ItemLine(|items| - 1, items[|items| - 1])]
  }

  function TotalLine(items: seq<Item>): TextCmd
  {
    TextCmd([Lit("Total: "), Fixed2(TotalAmount(items)), Lit(" TND")], 10, 60 + 10 * |items| + 10)
  }

  /** Every text command `handleSubmit` draws, in order. */
  function SubmitLayout(f: FormData): seq<TextCmd>
  {
    SubmitHead(f) + ItemLines(f.items) + [TotalLine(f.items)]
  }

  /** The title, the client, the due date and the "Articles:" caption. */
  function SubmitHead(f: FormData): (r: seq<TextCmd>)
    ensures |r| == 4
  {
    [ TextCmd([Lit(Title(f.docType))], 10, 20),
      TextCmd([Lit("Client: " + f.client)], 10, 30),
      TextCmd([Lit("Date d'échéance: " + f.dueDate)], 10, 40),
      TextCmd([Lit("Articles:")], 10, 50) ]
  }

  function SubmitFileName(f: FormData, today: string): string
  {
    f.docType + "_" + f.client + "_" + today + ".pdf"
  }

  function PayloadOf(f: FormData): Payload
  {
    Payload(f.docType, f.client, TotalAmount(f.items), f.dueDate, f.description, f.items)
  }

  lemma {:induction false} ItemLinesLength(items: seq<Item>)
    ensures |ItemLines(items)| == |items|
    decreases |items|
  {
    if items != [] {
      ItemLinesLength(items[..|items| - 1]);
    }
  }

  /** The line of article `i` starts with its number `i + 1` and a dot. */
  lemma ItemLineNumbered(i: nat, it: Item)
    ensures ItemLine(i, it).text[0].Lit?
    ensures NatToString(i + 1) + ". " <= ItemLine(i, it).text[0].s
  {
    var p := NatToString(i + 1) + ". ";
    var s := p + (it.description + " - Qté: " + IntToString(it.quantity) + " - Prix unitaire: ");
    assert ItemLine(i, it).text[0].s == s;
    assert s[..|p|] == p;
  }

  /** Article `i` is drawn at `y = 60 + 10 i`. */
  lemma {:induction false} ItemLineAt(items: seq<Item>, i: nat)
    requires i < |items|
    ensures |ItemLines(items)| == |items|
    ensures ItemLines(items)[i] == ItemLine(i, items[i])
    ensures ItemLines(items)[i].x == 10 && ItemLines(items)[i].y == 60 + 10 * i
    decreases |items|
  {
    ItemLinesLength(items);
    var front := items[..|items| - 1];
    ItemLinesLength(front);
    if i < |front| {
      ItemLineAt(front, i);
      assert front[i] == items[i];
    }
  }

  /** The article lines occupy `y = 60 .. 60 + 10 (n - 1)` and the total sits one blank line below. */
  lemma LayoutPlacement(f: FormData)
    ensures |SubmitLayout(f)| == |f.items| + 5
    ensures forall i :: 0 <= i < |f.items| ==> SubmitLayout(f)[4 + i] == ItemLine(i, f.items[i])
    ensures SubmitLayout(f)[|f.items| + 4] == TotalLine(f.items)
    ensures SubmitLayout(f)[|f.items| + 4].y == 60 + 10 * |f.items| + 10
  {
    ItemLinesLength(f.items);
    var head, lines := SubmitHead(f), ItemLines(f.items);
    forall i | 0 <= i < |f.items| ensures SubmitLayout(f)[4 + i] == ItemLine(i, f.items[i]) {
      Seqs.IndexOfMiddle(head, lines, [TotalLine(f.items)], i);
      ItemLineAt(f.items, i);
    }
  }

  /** The submitted amount is the total printed on the page. */
  lemma PayloadMatchesPage(f: FormData)
    ensures PayloadOf(f).amount == TotalAmount(f.items)
    ensures SubmitLayout(f)[|SubmitLayout(f)| - 1].text[1] == Fixed2(PayloadOf(f).amount)
    ensures PayloadOf(f).docType == f.docType && PayloadOf(f).client == f.client && PayloadOf(f).dueDate == f.dueDate
    ensures PayloadOf(f).description == f.description && PayloadOf(f).items == f.items
  {
  }

  /** The modal's state: `formData` and its setters. */
  class Form {
    var docType: string
    var client: string
    var amount: string
    var dueDate: string
    var description: string
    var items: seq<Item>

    function Snapshot(): FormData
      reads this
    {
      FormData(docType, client, amount, dueDate, description, items)
    }

    constructor ()
      ensures Snapshot() == FormData("invoice", "", "", "", "", [BlankItem])
    {
      docType := "invoice";
      client := "";
      amount := "";
      dueDate := "";
      description := "";
      items := [BlankItem];
    }

    /** The type radios and the client and due-date inputs. */
    method Fill(newType: string, newClient: string, newDueDate: string)
      modifies this`docType, this`client, this`dueDate
      ensures Snapshot() == old(Snapshot()).(docType := newType, client := newClient, dueDate := newDueDate)
    {
      docType := newType;
      client := newClient;
      dueDate := newDueDate;
    }

    method AddItem()
      modifies this`items
      ensures items == AddedItems(old(items))
      ensures TotalAmount(items) == TotalAmount(old(items))
    {
      AddKeepsTotal(items);
      items := items + [BlankItem];
    }

    method UpdateItem(index: nat, e: Edit)
      requires index < |items|
      modifies this`items
      ensures items == UpdatedItems(old(items), index, e)
    {
      var newItems := items;
      newItems := newItems[index := EditedItem(newItems[index], e)];
      items := newItems;
    }

    /** `removeItem(index)`: no guard of its own. */
    method RemoveItem(index: int)
      modifies this`items
      ensures items == RemoveIndex(old(items), index)
    {
      items := RemoveIndex(items, index);
    }

    /** The `forEach` of `handleSubmit`: one line per article, `y` moving down by 10 from 60. */
    static method DrawItems(items: seq<Item>) returns (cmds: seq<TextCmd>, y: int)
      ensures cmds == ItemLines(items)
      ensures y == 60 + 10 * |items|
    {
      cmds := [];
      y := 60;
      var index := 0;
      while index < |items|
        invariant 0 <= index <= |items|
        invariant y == 60 + 10 * index
        invariant cmds == ItemLines(items[..index])
      {
        var item := items[index];
        assert items[..index + 1][..index] == items[..index];
        assert ItemLines(items[..index + 1]) == ItemLines(items[..index]) + [ItemLine(index, item)];
        var line := TextCmd([Lit(NatToString(index + 1) + ". " + item.description + " - Qté: " + IntToString(item.quantity) + " - Prix unitaire: "),
                             Fixed2(item.price), Lit(" TND - Total: "), Fixed2(item.quantity as real * item.price), Lit(" TND")],
                            10, y);
        assert line.text[0] == ItemLine(index, item).text[0];
        assert line.text[3] == ItemLine(index, item).text[3];
        assert line.y == ItemLine(index, item).y;
        assert line == ItemLine(index, item);
        cmds := cmds + [line];
        y := y + 10;
        index := index + 1;
      }
      assert items[..index] == items;
    }

    /** `handleSubmit`: the PDF, its file name and the payload for the dashboard. */
    method Submit(today: string) returns (cmds: seq<TextCmd>, fileName: string, payload: Payload)
      ensures cmds == SubmitLayout(Snapshot())
      ensures fileName == SubmitFileName(Snapshot(), today)
      ensures payload == PayloadOf(Snapshot())
    {
      var totalAmount := TotalAmount(items);
      cmds := [ TextCmd([Lit(Title(docType))], 10, 20),
                TextCmd([Lit("Client: " + client)], 10, 30),
                TextCmd([Lit("Date d'échéance: " + dueDate)], 10, 40),
                TextCmd([Lit("Articles:")], 10, 50) ];
      var lines, y := DrawItems(items);
      cmds := cmds + lines;
      cmds := cmds + [TextCmd([Lit("Total: "), Fixed2(totalAmount), Lit(" TND")], 10, y + 10)];
      fileName := docType + "_" + client + "_" + today + ".pdf";
      payload := Payload(docType, client, totalAmount, dueDate, description, items);
    }
  }
}
