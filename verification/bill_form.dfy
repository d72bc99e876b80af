/** The data path of the bill form (src/components/BillForm.tsx): validating
    the raw field texts and turning a valid form into the record handed to the
    add or edit callback. The form keeps every field as the text typed in. */
module BillForm {
  import opened Wrappers
  import opened BillTypes
  import opened Text
  import opened BillStore

  /** `parseFloat(text)`: `None` stands for NaN. The runtime's parser is not
      part of this model, so it is a parameter. */
  type NumberParser = string -> Option<real>

  /** The form's state: the five field texts. */
  datatype FormData = FormData(
    name: string,
    amount: string,
    date: string,
    category: string,
    frequency: string)

  /** The fields an error message can be attached to. */
  datatype Field = NameField | AmountField | DateField | CategoryField | FrequencyField

  const NameRequired: string := "Name is required"
  const NameTooLong: string := "Name must be less than 100 characters"
  const AmountInvalid: string := "Please enter a valid amount"
  const DateRequired: string := "Date is required"
  const DateInvalid: string := "Please enter a valid date"
  const CategoryRequired: string := "Category is required"
  const FrequencyRequired: string := "Frequency is required"

  /** The empty form: no name, amount or date, the first category and the
      third frequency (Monthly). */
  const DefaultForm: FormData := FormData([], [], [], Categories[0], Frequencies[2])

  /** The error messages for the current field texts, at most one per field.
      The name is rejected when it trims to nothing or, untrimmed, is longer
      than 100 characters; the amount when it does not parse or is negative;
      the date when it is empty or does not parse; category and frequency
      when empty. */
  function ValidateForm(f: FormData, parseNumber: NumberParser, parseDate: DateParser): (errors: map<Field, string>)
    ensures NameField in errors <==> Trim(f.name) == [] || |f.name| > MaxNameLength
    ensures NameField in errors ==>
      errors[NameField] == (if Trim(f.name) == [] then NameRequired else NameTooLong)
    ensures AmountField in errors <==> parseNumber(f.amount).None? || parseNumber(f.amount).value < 0.0
    ensures AmountField in errors ==> errors[AmountField] == AmountInvalid
    ensures DateField in errors <==> f.date == [] || parseDate(f.date).None?
    ensures DateField in errors ==>
      errors[DateField] == (if f.date == [] then DateRequired else DateInvalid)
    ensures CategoryField in errors <==> f.category == []
    ensures CategoryField in errors ==> errors[CategoryField] == CategoryRequired
    ensures FrequencyField in errors <==> f.frequency == []
    ensures FrequencyField in errors ==> errors[FrequencyField] == FrequencyRequired
  {
    var e0: map<Field, string> := map[];
    var e1 :=
      if Trim(f.name) == [] then e0[NameField := NameRequired]
      else if |f.name| > MaxNameLength then e0[NameField := NameTooLong]
      else e0;
    var amount := parseNumber(f.amount);
    var e2 := if amount.None? || amount.value < 0.0 then e1[AmountField := AmountInvalid] else e1;
    var e3 :=
      if f.date == [] then e2[DateField := DateRequired]
      else if parseDate(f.date).None? then e2[DateField := DateInvalid]
      else e2;
    var e4 := if f.category == [] then e3[CategoryField := CategoryRequired] else e3;
    var e5 := if f.frequency == [] then e4[FrequencyField := FrequencyRequired] else e4;
    e5
  }

  /** The form is valid when no field produced an error. */
  predicate FormIsValid(f: FormData, parseNumber: NumberParser, parseDate: DateParser) {
    |ValidateForm(f, parseNumber, parseDate)| == 0
  }

  /** The form is valid exactly when every field passes its own check. */
  lemma FormValidIff(f: FormData, parseNumber: NumberParser, parseDate: DateParser)
    ensures FormIsValid(f, parseNumber, parseDate) <==>
      && Trim(f.name) != [] && |f.name| <= MaxNameLength
      && parseNumber(f.amount).Some? && parseNumber(f.amount).value >= 0.0
      && f.date != [] && parseDate(f.date).Some?
      && f.category != [] && f.frequency != []
  {
    var errors := ValidateForm(f, parseNumber, parseDate);
    if forall k: Field :: k !in errors {
      assert errors == map[];
    } else {
      var k: Field :| k in errors;
      assert |errors| > 0;
    }
  }

  /** A name of whitespace only never passes the form, whatever else is typed. */
  lemma BlankNameRejected(f: FormData, parseNumber: NumberParser, parseDate: DateParser)
    requires AllWhitespace(f.name)
    ensures !FormIsValid(f, parseNumber, parseDate)
    ensures ValidateForm(f, parseNumber, parseDate)[NameField] == NameRequired
  {
    TrimEmptyIffAllWhitespace(f.name);
    FormValidIff(f, parseNumber, parseDate);
  }

  /** The store, unlike the form, accepts a name made only of whitespace:
      its check does not trim. Any such name of 1 to 100 characters, with an
      otherwise valid bill, passes the store and fails the form. */
  lemma StoreAcceptsBlankName(d: BillData, f: FormData, parseNumber: NumberParser, parseDate: DateParser)
    requires 0 < |d.name| <= MaxNameLength && AllWhitespace(d.name)
    requires d.amount >= 0.0 && d.date != [] && parseDate(d.date).Some?
    requires d.category != [] && d.frequency != []
    requires f.name == d.name
    ensures ValidateBill(d, parseDate)
    ensures !FormIsValid(f, parseNumber, parseDate)
  {
    BlankNameRejected(f, parseNumber, parseDate);
  }

  /** What a callback receives. */
  datatype Callback =
    | CallSubmit(data: BillData)  // `onSubmit(billData)` for a new bill
    | CallEdit(bill: Bill)        // `onEdit({...editingBill, ...billData})`

  function Payload(c: Callback): BillData {
    match c
    case CallSubmit(data) => data
    case CallEdit(bill) => bill.data
  }

  /** The outcome of a submit: the callback invoked, if any, and the form's
      texts and error messages afterwards. */
  datatype SubmitResult = SubmitResult(called: Option<Callback>, form: FormData, errors: map<Field, string>)

  /** Submitting the form. An invalid form shows its errors and calls nothing.
      A valid one hands the trimmed name, the parsed amount and the other
      texts to `onEdit` (keeping the edited bill's id) when a bill is being
      edited and an edit callback exists, and to `onSubmit` otherwise; then the
      form is reset and the errors cleared. */
  function HandleSubmit(f: FormData, editing: Option<Bill>, hasOnEdit: bool,
                        parseNumber: NumberParser, parseDate: DateParser): (r: SubmitResult)
    ensures !FormIsValid(f, parseNumber, parseDate) ==>
      r.called == None && r.form == f && r.errors == ValidateForm(f, parseNumber, parseDate)
    ensures FormIsValid(f, parseNumber, parseDate) ==>
      r.called.Some? && r.form == DefaultForm && r.errors == map[]
    ensures FormIsValid(f, parseNumber, parseDate) ==>
      && r.called.Some?
      && Payload(r.called.value).name == Trim(f.name)
      && parseNumber(f.amount) == Some(Payload(r.called.value).amount)
      && Payload(r.called.value).date == f.date
      && Payload(r.called.value).category == f.category
      && Payload(r.called.value).frequency == f.frequency
    ensures FormIsValid(f, parseNumber, parseDate) ==>
      r.called.Some? && (r.called.value.CallEdit? <==> editing.Some? && hasOnEdit)
    ensures FormIsValid(f, parseNumber, parseDate) && editing.Some? && hasOnEdit ==>
      r.called.Some? && r.called.value.CallEdit? && r.called.value.bill.id == editing.value.id
  {
    var errors := ValidateForm(f, parseNumber, parseDate);
    if |errors| != 0 then SubmitResult(None, f, errors)
    else
      FormValidIff(f, parseNumber, parseDate);
      var data := BillData(Trim(f.name), parseNumber(f.amount).value, f.date, f.category, f.frequency);
      var call := if editing.Some? && hasOnEdit then CallEdit(Bill(editing.value.id, data)) else CallSubmit(data);
      SubmitResult(Some(call), DefaultForm, map[])
  }

  /** The reset form starts with the first category and Monthly. */
  lemma DefaultFormSelections()
    ensures DefaultForm.category == "Power" && DefaultForm.frequency == FrequencyName(Monthly)
  {
  }

  /** The reset form is itself invalid: its name is empty. */
  lemma DefaultFormInvalid(parseNumber: NumberParser, parseDate: DateParser)
    ensures !FormIsValid(DefaultForm, parseNumber, parseDate)
  {
    var f := DefaultForm;
    assert f.name == [];
    BlankNameRejected(f, parseNumber, parseDate);
  }

  /** Whatever a valid form submits passes the store's own check, so an add
      below capacity or an update is never rejected by the store. */
  lemma SubmittedDataPassesStore(f: FormData, editing: Option<Bill>, hasOnEdit: bool,
                                 parseNumber: NumberParser, parseDate: DateParser)
    requires FormIsValid(f, parseNumber, parseDate)
    ensures ValidateBill(Payload(HandleSubmit(f, editing, hasOnEdit, parseNumber, parseDate).called.value), parseDate)
  {
    FormValidIff(f, parseNumber, parseDate);
    TrimIsMiddle(f.name);
  }

  /** A valid new bill submitted to a store below capacity is appended under
      the fresh id with the trimmed name and the parsed amount. */
  lemma SubmitThenAdd(bills: seq<Bill>, f: FormData, id: string,
                      parseNumber: NumberParser, parseDate: DateParser)
    requires FormIsValid(f, parseNumber, parseDate) && |bills| < MaxBills
    ensures var r := HandleSubmit(f, None, true, parseNumber, parseDate);
      r.called.value.CallSubmit? &&
      AddBill(bills, r.called.value.data, id, parseDate) == bills + [Bill(id, r.called.value.data)]
  {
    SubmittedDataPassesStore(f, None, true, parseNumber, parseDate);
  }

  /** A valid edit of the bill at position k of a store with unique ids
      replaces that bill, and only it, with the submitted fields under the
      same id. */
  lemma SubmitThenUpdate(bills: seq<Bill>, k: nat, f: FormData,
                         parseNumber: NumberParser, parseDate: DateParser)
    requires UniqueIds(bills) && k < |bills|
    requires FormIsValid(f, parseNumber, parseDate)
    ensures var r := HandleSubmit(f, Some(bills[k]), true, parseNumber, parseDate);
      var edited := Bill(bills[k].id, Payload(r.called.value));
      r.called.value == CallEdit(edited) &&
      UpdateBill(bills, edited, parseDate) == bills[k := edited]
  {
    var r := HandleSubmit(f, Some(bills[k]), true, parseNumber, parseDate);
    SubmittedDataPassesStore(f, Some(bills[k]), true, parseNumber, parseDate);
    UpdatePresentReplacesOne(bills, k, Bill(bills[k].id, Payload(r.called.value)), parseDate);
  }
}
