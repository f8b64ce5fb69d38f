/** The add-expense form: the entered fields, the error line above the
    form, validation on submit, the reset after a successful add, and the
    single-field updates made as the user types.

    The amount field holds what the number input parsed to: `None` for an
    empty input, `Some(x)` otherwise. "Today" and the outcome of the add
    callback come in as parameters. */
module Form {
  import opened Records

  /** The choices offered by the category drop-down, in display order. */
  const Categories: seq<string> := ["Food", "Transport", "Education", "Entertainment", "Health", "Other"]

  const ValidationError: string := "Please fill all fields with valid data"
  const AddFailedError: string := "Failed to add expense"

  datatype FormData = FormData(title: string, amount: Option<real>, category: string, date: string)

  /** The form as first shown and as reset after an add: empty title and
      amount, category `Food`, dated `today`. */
  function DefaultForm(today: string): (fd: FormData)
    ensures fd.title == [] && fd.amount == None && fd.date == today
    ensures fd.category == Categories[0]
  {
    FormData("", None, "Food", today)
  }

  /** The default category is one of the six offered, and the six are
      distinct. */
  lemma DefaultCategoryIsOffered(today: string)
    ensures DefaultForm(today).category in Categories
    ensures |Categories| == 6
    ensures forall i, j :: 0 <= i < j < |Categories| ==> Categories[i] != Categories[j]
  {
  }

  /** The characters `String.prototype.trim` strips: ECMAScript white space
      (tab, vertical tab, form feed, space, no-break space, byte-order mark
      and the other space separators) and line terminators. */
  predicate IsSpace(c: char) {
    c == '\t' || c == '\n' || c == '\U{000B}' || c == '\U{000C}' || c == '\r' ||
    c == ' ' || c == '\U{00A0}' || c == '\U{1680}' ||
    ('\U{2000}' <= c <= '\U{200A}') ||
    c == '\U{2028}' || c == '\U{2029}' || c == '\U{202F}' || c == '\U{205F}' ||
    c == '\U{3000}' || c == '\U{FEFF}'
  }

  /** `s` with its leading white space removed. */
  function TrimStart(s: string): (r: string)
    ensures |r| <= |s| && r == s[|s| - |r|..]
    ensures forall i :: 0 <= i < |s| - |r| ==> IsSpace(s[i])
    ensures r == [] || !IsSpace(r[0])
  {
    if s != [] && IsSpace(s[0]) then TrimStart(s[1..]) else s
  }

  /** `s` with its trailing white space removed. */
  function TrimEnd(s: string): (r: string)
    ensures |r| <= |s| && r == s[..|r|]
    ensures forall i :: |r| <= i < |s| ==> IsSpace(s[i])
    ensures r == [] || !IsSpace(r[|r| - 1])
  {
    if s != [] && IsSpace(s[|s| - 1]) then TrimEnd(s[..|s| - 1]) else s
  }

  /** `s.trim()`: empty exactly when `s` is all white space, and otherwise
      starting and ending with a character that is not white space. */
  function Trim(s: string): (r: string)
    ensures r == [] <==> forall i :: 0 <= i < |s| ==> IsSpace(s[i])
    ensures r != [] ==> !IsSpace(r[0]) && !IsSpace(r[|r| - 1])
  {
    var u := TrimStart(s);
    var r := TrimEnd(u);
    assert r != [] ==> r[0] == u[0];
    assert r == [] ==> u == [];
    r
  }

  /** The submit check: a submit is rejected exactly when the title is
      empty or all white space, the amount is missing, or the amount is not
      positive. */
  predicate IsValid(fd: FormData): (ok: bool)
    ensures !ok <==>
              (forall i :: 0 <= i < |fd.title| ==> IsSpace(fd.title[i])) ||
              fd.amount.None? || fd.amount.value <= 0.0
  {
    Trim(fd.title) != [] && fd.amount.Some? && fd.amount.value > 0.0
  }

  /** What a valid submit hands to the add callback: the fields as entered
      (the title untrimmed) with the amount as a number. */
  function Submission(fd: FormData): (d: ExpenseData)
    requires fd.amount.Some?
    ensures d.title == fd.title && d.amount == fd.amount.value
    ensures d.category == fd.category && d.date == fd.date
  {
    ExpenseData(fd.title, fd.amount.value, fd.category, fd.date)
  }

  /** One `onChange` event: the input's `name` and its new `value`. */
  datatype FieldUpdate =
    | SetTitle(title: string)
    | SetAmount(amount: Option<real>)
    | SetCategory(category: string)
    | SetDate(date: string)

  /** Which field an update names. */
  function FieldIndex(u: FieldUpdate): nat {
    match u
    case SetTitle(_) => 0
    case SetAmount(_) => 1
    case SetCategory(_) => 2
    case SetDate(_) => 3
  }

  /** `{ ...formData, [name]: value }`: the named field takes the new value
      and the other three stay as they were. */
  function WithField(fd: FormData, u: FieldUpdate): (r: FormData)
    ensures FieldIndex(u) != 0 ==> r.title == fd.title
    ensures FieldIndex(u) != 1 ==> r.amount == fd.amount
    ensures FieldIndex(u) != 2 ==> r.category == fd.category
    ensures FieldIndex(u) != 3 ==> r.date == fd.date
    ensures u.SetTitle? ==> r.title == u.title
    ensures u.SetAmount? ==> r.amount == u.amount
    ensures u.SetCategory? ==> r.category == u.category
    ensures u.SetDate? ==> r.date == u.date
  {
    match u
    case SetTitle(t) => fd.(title := t)
    case SetAmount(a) => fd.(amount := a)
    case SetCategory(c) => fd.(category := c)
    case SetDate(d) => fd.(date := d)
  }

  /** Changes to different fields commute; a second change to the same field
      overrides the first. */
  lemma WithFieldLaws(fd: FormData, u: FieldUpdate, v: FieldUpdate)
    ensures FieldIndex(u) != FieldIndex(v) ==>
              WithField(WithField(fd, u), v) == WithField(WithField(fd, v), u)
    ensures FieldIndex(u) == FieldIndex(v) ==>
              WithField(WithField(fd, u), v) == WithField(fd, v)
  {
  }

  class ExpenseForm {
    var formData: FormData
    var error: string

    /** `useState({ title: '', amount: '', category: 'Food', date: today })`
        and `useState('')`. */
    constructor (today: string)
      ensures formData == DefaultForm(today) && error == ""
    {
      formData := DefaultForm(today);
      error := "";
    }

    /** `handleSubmit`: clear the error; on invalid input set the validation
        error and stop without calling back; otherwise call back with the
        entered data (returned as `submitted`), then reset the form if the
        call succeeded or keep it and report the failure if it threw
        (`addFails`). */
    method HandleSubmit(addFails: bool, today: string) returns (submitted: Option<ExpenseData>)
      modifies this
      ensures !IsValid(old(formData)) ==>
                submitted == None && formData == old(formData) && error == ValidationError
      ensures IsValid(old(formData)) ==> submitted == Some(Submission(old(formData)))
      ensures IsValid(old(formData)) && !addFails ==>
                formData == DefaultForm(today) && error == ""
      ensures IsValid(old(formData)) && addFails ==>
                formData == old(formData) && error == AddFailedError
    {
      error := "";
      if !IsValid(formData) {
        error := ValidationError;
        submitted := None;
        return;
      }
      submitted := Some(Submission(formData));
      if addFails {
        error := AddFailedError;
      } else {
        formData := DefaultForm(today);
      }
    }

    /** `handleChange`: set the one field the event names. */
    method HandleChange(u: FieldUpdate)
      modifies this`formData
      ensures formData == WithField(old(formData), u)
      ensures error == old(error)
    {
      formData := WithField(formData, u);
    }
  }
}
