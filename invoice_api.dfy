/** The invoice REST controller: the request validator and the outcome each
    handler answers with. The `invoices` table is a map from id to record;
    a row is found, updated or deleted exactly when its id is a key. */
module InvoiceApi {
  import opened Strings
  import opened Js
  import Seqs

  /** The fields the handlers pass to `validateInvoiceData`, as they arrive. */
  datatype InvoiceData = InvoiceData(
    userId: Value,
    contractId: Value,
    number: Value,
    docType: Value,
    status: Value,
    totalTtc: Value,
    dueDate: Value,
    encaisse: Value,
    enAttente: Value,
    enRetard: Value)

  /** The checks of `validateInvoiceData`, in the order it makes them. */
  datatype Rule =
    | UserIdRequired | ContractIdRequired | NumberRequired | TypeValid | StatusValid
    | TotalNonNegative | DueDateRequired | EncaisseValid | EnAttenteValid | EnRetardValid

  const AllRules := [UserIdRequired, ContractIdRequired, NumberRequired, TypeValid, StatusValid,
                     TotalNonNegative, DueDateRequired, EncaisseValid, EnAttenteValid, EnRetardValid]

  const TypeNames := ["devise", "facture"]

  const StatusNames := ["en_attente", "payée", "en_retard", "annulée"]

  /** The request field rule `r` checks; its message starts with it. */
  function FieldName(r: Rule): string
  {
    match r
    case UserIdRequired => "user_id"
    case ContractIdRequired => "contract_id"
    case NumberRequired => "number"
    case TypeValid => "type"
    case StatusValid => "status"
    case TotalNonNegative => "total_ttc"
    case DueDateRequired => "due_date"
    case EncaisseValid => "encaissé"
    case EnAttenteValid => "en_attente"
    case EnRetardValid => "en_retard"
  }

  /** The message `validateInvoiceData` pushes when rule `r` fails. */
  function Message(r: Rule): string
  {
    FieldName(r) +
    match r
    case TypeValid => " must be \"devise\" or \"facture\"" + " (case-insensitive)"
    case StatusValid => " must be \"en_attente\", \"payée\", " + "\"en_retard\", or \"annulée\"" + " (case-insensitive)"
    case TotalNonNegative | EncaisseValid | EnAttenteValid | EnRetardValid => " must be a non-negative number"
    case _ => " is required"
  }

  /** `!v || !names.includes(v.toLowerCase())` for a string or a falsy `v`. */
  predicate NameRejected(v: Value, names: seq<string>)
  {
    !Truthy(v) || (v.Str? && Lower(v.s) !in names)
  }

  /** An optional amount: present and either NaN or negative. */
  predicate AmountRejected(v: Value)
  {
    v != Missing && (IsNaN(v) || IsNegative(v))
  }

  /** Rule `r` fails on `d`. */
  predicate Violates(d: InvoiceData, isUpdate: bool, r: Rule)
  {
    match r
    case UserIdRequired => !isUpdate && !Truthy(d.userId)
    case ContractIdRequired => !isUpdate && !Truthy(d.contractId)
    case NumberRequired => !Truthy(d.number)
    case TypeValid => NameRejected(d.docType, TypeNames)
    case StatusValid => NameRejected(d.status, StatusNames)
    case TotalNonNegative => d.totalTtc == Missing || IsNegative(d.totalTtc)
    case DueDateRequired => !Truthy(d.dueDate)
    case EncaisseValid => AmountRejected(d.encaisse)
    case EnAttenteValid => AmountRejected(d.enAttente)
    case EnRetardValid => AmountRejected(d.enRetard)
  }

  /** A truthy `type` or `status` that is not a string has no `toLowerCase`:
      the call throws and the handler's `catch` answers. */
  predicate Throws(d: InvoiceData)
  {
    (Truthy(d.docType) && !d.docType.Str?) || (Truthy(d.status) && !d.status.Str?)
  }

  /** The messages of the rules in `rules` that `d` violates, in the order of `rules`. */
  function Violations(rules: seq<Rule>, d: InvoiceData, isUpdate: bool): seq<string>
  {
    if rules == [] then []
    else
      Violations(rules[..|rules| - 1], d, isUpdate)
      + (if Violates(d, isUpdate, rules[|rules| - 1]) then [Message(rules[|rules| - 1])] else [])
  }

  datatype Validation = Errors(errors: seq<string>) | Threw

  /** What `validateInvoiceData(d, isUpdate)` returns, or that it throws. */
  function Validate(d: InvoiceData, isUpdate: bool): Validation
  {
    if Throws(d) then Threw else Errors(Violations(AllRules, d, isUpdate))
  }

  /** Checking one more rule appends its message, if it fails. */
  lemma ViolationsStep(rules: seq<Rule>, r: Rule, d: InvoiceData, isUpdate: bool)
    ensures Violations(rules + [r], d, isUpdate) == Violations(rules, d, isUpdate) + Reported(d, isUpdate, r)
  {
    assert (rules + [r])[..|rules|] == rules;
  }

  /** The message rule `r` adds, if any. */
  function Reported(d: InvoiceData, isUpdate: bool, r: Rule): seq<string>
  {
    if Violates(d, isUpdate, r) then [Message(r)] else []
  }

  /** `validateInvoiceData`: one `errors.push` per failed check, in the order of `AllRules`. */
  method ValidateInvoiceData(d: InvoiceData, isUpdate: bool) returns (r: Validation)
    ensures r == Validate(d, isUpdate)
  {
    var errors := CheckRequired(d, isUpdate);
    var threw;
    threw, errors := CheckNames(d, isUpdate, errors);
    if threw {
      return Threw;
    }
    errors := CheckTotalAndDue(d, isUpdate, errors);
    errors := CheckOptionalAmounts(d, isUpdate, errors);
    ViolationsOfAllRules(d, isUpdate);
    r := Errors(errors);
  }

  /** The checks of `user_id`, `contract_id` and `number`. */
  method CheckRequired(d: InvoiceData, isUpdate: bool) returns (errors: seq<string>)
    ensures errors == Reported(d, isUpdate, UserIdRequired) + Reported(d, isUpdate, ContractIdRequired)
                      + Reported(d, isUpdate, NumberRequired)
  {
    errors := [];
    if !isUpdate && !Truthy(d.userId) { errors := errors + [Message(UserIdRequired)]; }
    ghost var e1 := errors;
    if !isUpdate && !Truthy(d.contractId) { errors := errors + [Message(ContractIdRequired)]; }
    ghost var e2 := errors;
    assert e2 == e1 + Reported(d, isUpdate, ContractIdRequired);
    if !Truthy(d.number) { errors := errors + [Message(NumberRequired)]; }
    assert errors == e2 + Reported(d, isUpdate, NumberRequired);
  }

  /** The checks of `type` and `status`; `toLowerCase` on a truthy non-string throws. */
  method CheckNames(d: InvoiceData, isUpdate: bool, errors0: seq<string>) returns (threw: bool, errors: seq<string>)
    ensures threw <==> Throws(d)
    ensures !threw ==> errors == errors0 + Reported(d, isUpdate, TypeValid) + Reported(d, isUpdate, StatusValid)
  {
    errors := errors0;
    if Truthy(d.docType) && !d.docType.Str? { return true, errors; }
    if !Truthy(d.docType) || Lower(d.docType.s) !in TypeNames {
      errors := errors + [Message(TypeValid)];
    }
    ghost var e1 := errors;
    assert e1 == errors0 + Reported(d, isUpdate, TypeValid);
    if Truthy(d.status) && !d.status.Str? { return true, errors; }
    if !Truthy(d.status) || Lower(d.status.s) !in StatusNames {
      errors := errors + [Message(StatusValid)];
    }
    assert errors == e1 + Reported(d, isUpdate, StatusValid);
    threw := false;
  }

  /** The checks of `total_ttc` and `due_date`. */
  method CheckTotalAndDue(d: InvoiceData, isUpdate: bool, errors0: seq<string>) returns (errors: seq<string>)
    ensures errors == errors0 + Reported(d, isUpdate, TotalNonNegative) + Reported(d, isUpdate, DueDateRequired)
  {
    errors := errors0;
    if d.totalTtc == Missing || IsNegative(d.totalTtc) { errors := errors + [Message(TotalNonNegative)]; }
    ghost var e1 := errors;
    assert e1 == errors0 + Reported(d, isUpdate, TotalNonNegative);
    if !Truthy(d.dueDate) { errors := errors + [Message(DueDateRequired)]; }
    assert errors == e1 + Reported(d, isUpdate, DueDateRequired);
  }

  /** The checks of the three optional amounts, all of one shape. */
  method CheckOptionalAmounts(d: InvoiceData, isUpdate: bool, errors0: seq<string>) returns (errors: seq<string>)
    ensures errors == errors0 + Reported(d, isUpdate, EncaisseValid) + Reported(d, isUpdate, EnAttenteValid)
                      + Reported(d, isUpdate, EnRetardValid)
  {
    errors := CheckOptionalAmount(d, isUpdate, EncaisseValid, d.encaisse, errors0);
    errors := CheckOptionalAmount(d, isUpdate, EnAttenteValid, d.enAttente, errors);
    errors := CheckOptionalAmount(d, isUpdate, EnRetardValid, d.enRetard, errors);
  }

  /** `if (v !== undefined && (isNaN(v) || v < 0)) errors.push(...)` for the amount `v` of rule `r`. */
  method CheckOptionalAmount(d: InvoiceData, isUpdate: bool, r: Rule, v: Value, errors0: seq<string>) returns (errors: seq<string>)
    requires (r == EncaisseValid && v == d.encaisse) || (r == EnAttenteValid && v == d.enAttente)
             || (r == EnRetardValid && v == d.enRetard)
    ensures errors == errors0 + Reported(d, isUpdate, r)
  {
    errors := errors0;
    if v != Missing && (IsNaN(v) || IsNegative(v)) {
      errors := errors + [Message(r)];
    }
    assert Violates(d, isUpdate, r) == AmountRejected(v);
  }

  /** `Violations` over all rules, read rule by rule. */
  lemma ViolationsOfAllRules(d: InvoiceData, isUpdate: bool)
    ensures Violations(AllRules, d, isUpdate)
         == Reported(d, isUpdate, UserIdRequired) + Reported(d, isUpdate, ContractIdRequired)
            + Reported(d, isUpdate, NumberRequired) + Reported(d, isUpdate, TypeValid)
            + Reported(d, isUpdate, StatusValid) + Reported(d, isUpdate, TotalNonNegative)
            + Reported(d, isUpdate, DueDateRequired) + Reported(d, isUpdate, EncaisseValid)
            + Reported(d, isUpdate, EnAttenteValid) + Reported(d, isUpdate, EnRetardValid)
  {
    var p0: seq<Rule> := [];
    var p1 := p0 + [UserIdRequired];
    ViolationsStep(p0, UserIdRequired, d, isUpdate);
    var p2 := p1 + [ContractIdRequired];
    ViolationsStep(p1, ContractIdRequired, d, isUpdate);
    var p3 := p2 + [NumberRequired];
    ViolationsStep(p2, NumberRequired, d, isUpdate);
    var p4 := p3 + [TypeValid];
    ViolationsStep(p3, TypeValid, d, isUpdate);
    var p5 := p4 + [StatusValid];
    ViolationsStep(p4, StatusValid, d, isUpdate);
    var p6 := p5 + [TotalNonNegative];
    ViolationsStep(p5, TotalNonNegative, d, isUpdate);
    var p7 := p6 + [DueDateRequired];
    ViolationsStep(p6, DueDateRequired, d, isUpdate);
    var p8 := p7 + [EncaisseValid];
    ViolationsStep(p7, EncaisseValid, d, isUpdate);
    var p9 := p8 + [EnAttenteValid];
    ViolationsStep(p8, EnAttenteValid, d, isUpdate);
    var p10 := p9 + [EnRetardValid];
    ViolationsStep(p9, EnRetardValid, d, isUpdate);
    assert [] + Reported(d, isUpdate, UserIdRequired) == Reported(d, isUpdate, UserIdRequired);
    AllRulesOneByOne();
  }

  lemma AllRulesOneByOne()
    ensures [] + [UserIdRequired] + [ContractIdRequired] + [NumberRequired] + [TypeValid] + [StatusValid]
            + [TotalNonNegative] + [DueDateRequired] + [EncaisseValid] + [EnAttenteValid] + [EnRetardValid]
         == AllRules
  {
  }

  /** Each message starts with its rule's field name, so a few characters tell the rule. */
  function RuleOfMessage(m: string): Rule
  {
    if |m| < 4 then EnRetardValid
    else if m[0] == 'u' then UserIdRequired
    else if m[0] == 'c' then ContractIdRequired
    else if m[0] == 'n' then NumberRequired
    else if m[0] == 's' then StatusValid
    else if m[0] == 'd' then DueDateRequired
    else if m[0] == 't' then (if m[1] == 'y' then TypeValid else TotalNonNegative)
    else if m[2] == 'c' then EncaisseValid
    else if m[3] == 'a' then EnAttenteValid
    else EnRetardValid
  }

  lemma MessageNamesRule(r: Rule)
    ensures RuleOfMessage(Message(r)) == r
  {
    var m, f := Message(r), FieldName(r);
    match r
    case UserIdRequired => assert m[0] == f[0] == 'u';
    case ContractIdRequired => assert m[0] == f[0] == 'c';
    case NumberRequired => assert m[0] == f[0] == 'n';
    case TypeValid => assert m[0] == f[0] == 't' && m[1] == f[1] == 'y';
    case StatusValid => assert m[0] == f[0] == 's';
    case TotalNonNegative => assert m[0] == f[0] == 't' && m[1] == f[1] == 'o';
    case DueDateRequired => assert m[0] == f[0] == 'd';
    case EncaisseValid => assert m[0] == f[0] == 'e' && m[2] == f[2] == 'c';
    case EnAttenteValid => assert m[0] == f[0] == 'e' && m[2] == f[2] == '_' && m[3] == f[3] == 'a';
    case EnRetardValid => assert m[0] == f[0] == 'e' && m[2] == f[2] == '_' && m[3] == f[3] == 'r';
  }

  /** Different rules report different messages. */
  lemma MessagesDistinct(a: Rule, b: Rule)
    ensures Message(a) == Message(b) <==> a == b
  {
    MessageNamesRule(a);
    MessageNamesRule(b);
  }

  /** A rule's message is reported iff the rule is in the list and fails. */
  lemma {:induction false} ViolationsMembers(rules: seq<Rule>, d: InvoiceData, isUpdate: bool, r: Rule)
    ensures Message(r) in Violations(rules, d, isUpdate) <==> r in rules && Violates(d, isUpdate, r)
    decreases |rules|
  {
    if rules != [] {
      var front, last := rules[..|rules| - 1], rules[|rules| - 1];
      ViolationsMembers(front, d, isUpdate, r);
      MessagesDistinct(r, last);
      var v := Violations(front, d, isUpdate);
      assert Violations(rules, d, isUpdate) == v + Reported(d, isUpdate, last);
      assert Message(r) in v + Reported(d, isUpdate, last)
         <==> Message(r) in v || (Violates(d, isUpdate, last) && Message(r) == Message(last));
      assert r in rules <==> r in front || r == last by { Seqs.SplitAt(rules, |rules| - 1); }
    }
  }

  /** No message is reported twice. */
  lemma {:induction false} ViolationsDistinct(rules: seq<Rule>, d: InvoiceData, isUpdate: bool)
    requires forall i, j :: 0 <= i < j < |rules| ==> rules[i] != rules[j]
    ensures var v := Violations(rules, d, isUpdate);
            forall i, j :: 0 <= i < j < |v| ==> v[i] != v[j]
    decreases |rules|
  {
    if rules != [] {
      var front, last := rules[..|rules| - 1], rules[|rules| - 1];
      ViolationsDistinct(front, d, isUpdate);
      if Violates(d, isUpdate, last) {
        var v := Violations(front, d, isUpdate);
        ViolationsMembers(front, d, isUpdate, last);
        assert last !in front;
        assert Message(last) !in v;
      }
    }
  }

  lemma EveryRuleChecked(r: Rule)
    ensures r in AllRules
  {
  }

  /** The error list is empty iff every rule passes; otherwise it holds one
      message for each failed rule and no other, each once. */
  lemma ValidateReportsAll(d: InvoiceData, isUpdate: bool)
    requires !Throws(d)
    ensures Validate(d, isUpdate).Errors?
    ensures Validate(d, isUpdate).errors == [] <==> forall r :: !Violates(d, isUpdate, r)
    ensures forall r :: Message(r) in Validate(d, isUpdate).errors <==> Violates(d, isUpdate, r)
    ensures var e := Validate(d, isUpdate).errors; forall i, j :: 0 <= i < j < |e| ==> e[i] != e[j]
  {
    forall r ensures Message(r) in Validate(d, isUpdate).errors <==> Violates(d, isUpdate, r) {
      ViolationsMembers(AllRules, d, isUpdate, r);
      EveryRuleChecked(r);
    }
    assert forall i, j :: 0 <= i < j < |AllRules| ==> AllRules[i] != AllRules[j];
    ViolationsDistinct(AllRules, d, isUpdate);
    assert Validate(d, isUpdate).errors == Violations(AllRules, d, isUpdate);
    if forall r :: !Violates(d, isUpdate, r) {
      NoViolationsNoMessages(AllRules, d, isUpdate);
    }
  }

  /** With no failed rule nothing is reported. */
  lemma {:induction false} NoViolationsNoMessages(rules: seq<Rule>, d: InvoiceData, isUpdate: bool)
    requires forall r :: !Violates(d, isUpdate, r)
    ensures Violations(rules, d, isUpdate) == []
    decreases |rules|
  {
    if rules != [] {
      NoViolationsNoMessages(rules[..|rules| - 1], d, isUpdate);
    }
  }

  /** On update `user_id` and `contract_id` are not looked at. */
  lemma UpdateIgnoresOwnerFields(d: InvoiceData, userId: Value, contractId: Value)
    ensures Validate(d.(userId := userId, contractId := contractId), true) == Validate(d, true)
    ensures !Violates(d, true, UserIdRequired) && !Violates(d, true, ContractIdRequired)
  {
    var e := d.(userId := userId, contractId := contractId);
    assert forall r :: Violates(e, true, r) == Violates(d, true, r);
    ViolationsAgree(AllRules, e, d, true);
  }

  lemma {:induction false} ViolationsAgree(rules: seq<Rule>, d: InvoiceData, e: InvoiceData, isUpdate: bool)
    requires forall r :: Violates(d, isUpdate, r) == Violates(e, isUpdate, r)
    ensures Violations(rules, d, isUpdate) == Violations(rules, e, isUpdate)
    decreases |rules|
  {
    if rules != [] {
      ViolationsAgree(rules[..|rules| - 1], d, e, isUpdate);
    }
  }

  /** `type` and `status` are compared after lower-casing, so lower-casing them first changes nothing. */
  lemma CaseInsensitive(d: InvoiceData, isUpdate: bool, t: string, s: string)
    ensures Validate(d.(docType := Str(Lower(t)), status := Str(Lower(s))), isUpdate)
         == Validate(d.(docType := Str(t), status := Str(s)), isUpdate)
  {
    var a := d.(docType := Str(Lower(t)), status := Str(Lower(s)));
    var b := d.(docType := Str(t), status := Str(s));
    LowerCaseVerdicts(d, isUpdate, t, s);
    SameVerdictsSameValidation(a, b, isUpdate);
  }

  /** Every rule gives the same verdict on lower-cased `type` and `status`. */
  lemma LowerCaseVerdicts(d: InvoiceData, isUpdate: bool, t: string, s: string)
    ensures var a := d.(docType := Str(Lower(t)), status := Str(Lower(s)));
            var b := d.(docType := Str(t), status := Str(s));
            forall r :: Violates(a, isUpdate, r) == Violates(b, isUpdate, r)
  {
    var a := d.(docType := Str(Lower(t)), status := Str(Lower(s)));
    var b := d.(docType := Str(t), status := Str(s));
    forall r ensures Violates(a, isUpdate, r) == Violates(b, isUpdate, r) {
      match r
      case TypeValid => LowerNameRejected(t, TypeNames);
      case StatusValid => LowerNameRejected(s, StatusNames);
      case _ =>
    }
  }

  /** Two requests that pass and fail the same rules, and neither throws, validate alike. */
  lemma SameVerdictsSameValidation(d: InvoiceData, e: InvoiceData, isUpdate: bool)
    requires forall r :: Violates(d, isUpdate, r) == Violates(e, isUpdate, r)
    requires Throws(d) == Throws(e)
    ensures Validate(d, isUpdate) == Validate(e, isUpdate)
  {
    ViolationsAgree(AllRules, d, e, isUpdate);
  }

  /** A name check lower-cases its input, so it gives the same verdict on a lower-cased name. */
  lemma LowerNameRejected(t: string, names: seq<string>)
    ensures NameRejected(Str(Lower(t)), names) == NameRejected(Str(t), names)
  {
    LowerIdempotent(t);
    assert |Lower(t)| == |t|;
  }

  /** "PAYÉE" and "Facture" pass: the accented capital lowers to "é". */
  lemma UpperCaseNamesAccepted(d: InvoiceData, isUpdate: bool)
    ensures !Violates(d.(status := Str("PAYÉE")), isUpdate, StatusValid)
    ensures !Violates(d.(docType := Str("Facture")), isUpdate, TypeValid)
  {
    UpperCasePaidAccepted(d, isUpdate);
    UpperCaseInvoiceAccepted(d, isUpdate);
  }

  lemma UpperCasePaidAccepted(d: InvoiceData, isUpdate: bool)
    ensures !Violates(d.(status := Str("PAYÉE")), isUpdate, StatusValid)
  {
    var v := Str("PAYÉE");
    LowerPaid();
    assert StatusNames[1] == "payée";
    assert !NameRejected(v, StatusNames);
  }

  lemma UpperCaseInvoiceAccepted(d: InvoiceData, isUpdate: bool)
    ensures !Violates(d.(docType := Str("Facture")), isUpdate, TypeValid)
  {
    var v := Str("Facture");
    LowerInvoice();
    assert TypeNames[1] == "facture";
    assert !NameRejected(v, TypeNames);
  }

  lemma LowerPaid()
    ensures Lower("PAYÉE") == "payée"
  {
    assert LowerChar('P') == 'p' && LowerChar('A') == 'a' && LowerChar('Y') == 'y';
    assert LowerChar('É') == 'é' && LowerChar('E') == 'e';
  }

  lemma LowerInvoice()
    ensures Lower("Facture") == "facture"
  {
    assert LowerChar('F') == 'f';
    assert Lower("acture") == "acture";
  }

  /** A name outside the lists fails whatever its case. */
  lemma UnknownNamesRejected(d: InvoiceData, isUpdate: bool)
    ensures Violates(d.(status := Str("draft")), isUpdate, StatusValid)
    ensures Violates(d.(docType := Str("invoice")), isUpdate, TypeValid)
    ensures Violates(d.(status := Missing), isUpdate, StatusValid)
  {
    DraftIsNoStatus();
    InvoiceIsNoType();
  }

  lemma DraftIsNoStatus()
    ensures Lower("draft") !in StatusNames
  {
    assert Lower("draft") == "draft";
    assert forall i :: 0 <= i < |StatusNames| ==> StatusNames[i][0] != 'd';
  }

  lemma InvoiceIsNoType()
    ensures Lower("invoice") !in TypeNames
  {
    assert Lower("invoice") == "invoice";
    assert forall i :: 0 <= i < |TypeNames| ==> TypeNames[i][0] != 'i';
  }

  // ---------------------------------------------------------------- handlers

  /** What the handlers answer; `StatusCode` gives the HTTP status. */
  datatype Reply =
    | ValidationFailed(details: seq<string>)
    | Created
    | Found(row: InvoiceData)
    | NotFound
    | Updated
    | NoContent
    | ServerError

  function StatusCode(r: Reply): int
  {
    match r
    case ValidationFailed(_) => 400
    case Created => 201
    case Found(_) => 200
    case NotFound => 404
    case Updated => 200
    case NoContent => 204
    case ServerError => 500
  }

  /** `parseFloat(x) || 0.00`. */
  function Defaulted(v: Value): Value
  {
    Num(ParseFloatOrZero(v))
  }

  /** The record `createInvoice` builds from the request body. */
  function CreateData(body: Object): InvoiceData
  {
    InvoiceData(Get(body, "user_id"), Get(body, "contract_id"), Get(body, "number"), Get(body, "type"),
                Get(body, "status"), Get(body, "total_ttc"), Get(body, "due_date"),
                Defaulted(Get(body, "encaissé")), Defaulted(Get(body, "en_attente")), Defaulted(Get(body, "en_retard")))
  }

  /** The record `updateInvoice` builds: no `user_id` nor `contract_id`. */
  function UpdateData(body: Object): InvoiceData
  {
    CreateData(body).(userId := Missing, contractId := Missing)
  }

  /** The `SET` of the update: every column but the owner fields. */
  function Overwritten(row: InvoiceData, d: InvoiceData): InvoiceData
  {
    d.(userId := row.userId, contractId := row.contractId)
  }

  type Table = map<string, InvoiceData>

  datatype Outcome = Outcome(reply: Reply, rows: Table)

  /** `createInvoice`; `newId` is what `UUID()` yields, and a clash with a stored id is a database error. */
  function Create(rows: Table, body: Object, newId: string): Outcome
  {
    var d := CreateData(body);
    match Validate(d, false)
    case Threw => Outcome(ServerError, rows)
    case Errors(e) =>
      if e != [] then Outcome(ValidationFailed(e), rows)
      else if newId in rows then Outcome(ServerError, rows)
      else Outcome(Created, rows[newId := d])
  }

  /** `getInvoiceById`. */
  function GetById(rows: Table, id: string): Reply
  {
    if id in rows then Found(rows[id]) else NotFound
  }

  /** `updateInvoice`: validation comes first, then the row must exist. */
  function Update(rows: Table, id: string, body: Object): Outcome
  {
    var d := UpdateData(body);
    match Validate(d, true)
    case Threw => Outcome(ServerError, rows)
    case Errors(e) =>
      if e != [] then Outcome(ValidationFailed(e), rows)
      else if id !in rows then Outcome(NotFound, rows)
      else Outcome(Updated, rows[id := Overwritten(rows[id], d)])
  }

  /** `deleteInvoice`. */
  function Delete(rows: Table, id: string): Outcome
  {
    if id in rows then Outcome(NoContent, map k | k in rows && k != id :: rows[k]) else Outcome(NotFound, rows)
  }

  // ---------------------------------------------------------------- handler properties

  /** A body that fails validation is answered 400 with every message, and nothing is stored. */
  lemma CreateRejects(rows: Table, body: Object, newId: string)
    requires Validate(CreateData(body), false).Errors? && Validate(CreateData(body), false).errors != []
    ensures StatusCode(Create(rows, body, newId).reply) == 400
    ensures Create(rows, body, newId).reply.details == Validate(CreateData(body), false).errors
    ensures Create(rows, body, newId).rows == rows
  {
  }

  /** 201 exactly when the body validates and the id is fresh; the stored record keeps `type` and `status` as sent. */
  lemma CreateStores(rows: Table, body: Object, newId: string)
    ensures StatusCode(Create(rows, body, newId).reply) == 201
            <==> Validate(CreateData(body), false) == Errors([]) && newId !in rows
    ensures Create(rows, body, newId).reply == Created ==>
              Create(rows, body, newId).rows == rows[newId := CreateData(body)]
              && Create(rows, body, newId).rows[newId].docType == Get(body, "type")
              && Create(rows, body, newId).rows[newId].status == Get(body, "status")
    ensures Create(rows, body, newId).reply != Created ==> Create(rows, body, newId).rows == rows
  {
  }

  /** In a created record the three optional amounts are numbers, and only a negative one is refused. */
  lemma CreatedAmountsAreNumbers(body: Object)
    ensures var d := CreateData(body);
            d.encaisse.Num? && d.enAttente.Num? && d.enRetard.Num?
            && (Violates(d, false, EncaisseValid) <==> ParseFloat(Get(body, "encaissé")).Finite? && ParseFloat(Get(body, "encaissé")).x < 0.0)
            && (Violates(d, false, EnAttenteValid) <==> ParseFloat(Get(body, "en_attente")).Finite? && ParseFloat(Get(body, "en_attente")).x < 0.0)
            && (Violates(d, false, EnRetardValid) <==> ParseFloat(Get(body, "en_retard")).Finite? && ParseFloat(Get(body, "en_retard")).x < 0.0)
  {
    DefaultedIsNumber(Get(body, "encaissé"));
    DefaultedIsNumber(Get(body, "en_attente"));
    DefaultedIsNumber(Get(body, "en_retard"));
  }

  /** 404 from get exactly when the id is not a key. */
  lemma GetFinds(rows: Table, id: string)
    ensures StatusCode(GetById(rows, id)) == 404 <==> id !in rows
    ensures id in rows ==> GetById(rows, id) == Found(rows[id]) && StatusCode(GetById(rows, id)) == 200
  {
  }

  /** Update answers 400 on a bad body whatever the id, then 404 for an unknown id, else 200. */
  lemma UpdateOutcomes(rows: Table, id: string, body: Object)
    requires !Throws(UpdateData(body))
    ensures var v := Validate(UpdateData(body), true).errors;
            var o := Update(rows, id, body);
            (StatusCode(o.reply) == 400 <==> v != [])
            && (StatusCode(o.reply) == 404 <==> v == [] && id !in rows)
            && (StatusCode(o.reply) == 200 <==> v == [] && id in rows)
            && (o.reply != Updated ==> o.rows == rows)
  {
  }

  /** A truthy non-string `type` or `status` makes `toLowerCase` throw: update answers
      500 and the table is unchanged. No other body is answered 500. */
  lemma UpdateThrowIsServerError(rows: Table, id: string, body: Object)
    ensures StatusCode(Update(rows, id, body).reply) == 500 <==> Throws(UpdateData(body))
    ensures Throws(UpdateData(body)) ==> Update(rows, id, body).rows == rows
  {
  }

  /** A successful update rewrites that row's columns, keeps its owner fields, and touches no other row. */
  lemma UpdateRewritesOneRow(rows: Table, id: string, body: Object)
    requires Update(rows, id, body).reply == Updated
    ensures var r := Update(rows, id, body).rows;
            r.Keys == rows.Keys
            && r[id] == UpdateData(body).(userId := rows[id].userId, contractId := rows[id].contractId)
            && (forall k :: k in rows && k != id ==> r[k] == rows[k])
            && GetById(r, id) == Found(r[id])
  {
  }

  /** Delete answers 204 and drops the row iff it exists; a second delete of the same id is 404. */
  lemma DeleteOutcomes(rows: Table, id: string)
    ensures StatusCode(Delete(rows, id).reply) == 204 <==> id in rows
    ensures StatusCode(Delete(rows, id).reply) == 404 <==> id !in rows
    ensures Delete(rows, id).rows.Keys == rows.Keys - {id}
    ensures forall k :: k in rows && k != id ==> Delete(rows, id).rows[k] == rows[k]
    ensures Delete(Delete(rows, id).rows, id).reply == NotFound
    ensures GetById(Delete(rows, id).rows, id) == NotFound
  {
  }

  /** The `invoices` table behind the handlers. */
  class InvoiceTable {
    var rows: Table

    constructor (initial: Table)
      ensures rows == initial
    {
      rows := initial;
    }

    method CreateInvoice(body: Object, newId: string) returns (reply: Reply)
      modifies this
      ensures Outcome(reply, rows) == Create(old(rows), body, newId)
    {
      var invoiceData := CreateData(body);
      var v := ValidateInvoiceData(invoiceData, false);
      if v.Threw? {
        return ServerError;
      }
      if |v.errors| > 0 {
        return ValidationFailed(v.errors);
      }
      if newId in rows {
        return ServerError;
      }
      rows := rows[newId := invoiceData];
      reply := Created;
    }

    method GetInvoiceById(id: string) returns (reply: Reply)
      ensures reply == GetById(rows, id)
      ensures id !in rows <==> StatusCode(reply) == 404
    {
      if id !in rows {
        return NotFound;
      }
      reply := Found(rows[id]);
    }

    method UpdateInvoice(id: string, body: Object) returns (reply: Reply)
      modifies this
      ensures Outcome(reply, rows) == Update(old(rows), id, body)
    {
      var invoiceData := UpdateData(body);
      var v := ValidateInvoiceData(invoiceData, true);
      if v.Threw? {
        return ServerError;
      }
      if |v.errors| > 0 {
        return ValidationFailed(v.errors);
      }
      if id !in rows {
        return NotFound;
      }
      var row := rows[id];
      rows := rows[id := invoiceData.(userId := row.userId, contractId := row.contractId)];
      reply := Updated;
    }

    method DeleteInvoice(id: string) returns (reply: Reply)
      modifies this
      ensures Outcome(reply, rows) == Delete(old(rows), id)
    {
      if id !in rows {
        return NotFound;
      }
      rows := map k | k in rows && k != id :: rows[k];
      reply := NoContent;
    }
  }
}
