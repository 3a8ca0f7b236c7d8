/** The create-service screen (src/components/Services.jsx): a form of text fields plus six image slots,
    its handlers, the validation list and the submit that posts a fixed-shape payload. */
module Services {
  import opened Wrappers
  import opened Js
  import Text
  import Web
  import Http
  import Api

  /** A chosen file, known by identity only. */
  datatype FileRef = FileRef(name: string)

  /** `formData`: the text fields by key, and the `images` array when the key is present. */
  datatype Form = Form(text: map<string, string>, images: Option<seq<Option<FileRef>>>)

  const IMAGES := "images"
  const IMAGE_SLOTS := 6
  /** The text keys of the initial form. */
  const TEXT_KEYS := ["category", "subCategory", "productName", "price", "description", "offers", "review", "rating", "imageUrl"]
  /** The keys the post-submit reset writes. */
  const RESET_KEYS := ["productName", "description", "price", "category", "imageUrl"]

  const FIXED_SUB_CATEGORY := "Adhesive & Glue"
  const CREATE_FAILED := "Failed to create service. Please try again."
  const PRICE_NOT_NUMBER := "Price must be a valid number"
  /** The checks of `validateForm`, in order: the key it reads and the message pushed when it is falsy. */
  const REQUIRED: seq<(string, string)> := [
    ("productName", "Product name is required"),
    ("category", "Category is required"),
    ("subCategory", "Sub-category is required"),
    ("price", "Price is required"),
    ("description", "Description is required")]

  /** A map from each of `keys` to the empty string. */
  function Blank(keys: seq<string>): (m: map<string, string>)
    ensures forall k :: k in m <==> k in keys
    ensures forall k :: k in m ==> m[k] == ""
  {
    map k | k in keys :: ""
  }

  /** `useState({...})`: nine empty text fields and six empty image slots. */
  function InitialForm(): (f: Form)
    ensures forall k :: k in f.text <==> k in TEXT_KEYS
    ensures forall k :: k in f.text ==> f.text[k] == ""
    ensures f.images.Some? && |f.images.value| == IMAGE_SLOTS
    ensures forall i :: 0 <= i < IMAGE_SLOTS ==> f.images.value[i].None?
  {
    Form(Blank(TEXT_KEYS), Some(seq(IMAGE_SLOTS, _ => None)))
  }

  /** The form after a successful submit: five empty text fields, no `subCategory`, no `images`. */
  function ResetForm(): (f: Form)
    ensures forall k :: k in f.text <==> k in RESET_KEYS
    ensures forall k :: k in f.text ==> f.text[k] == ""
    ensures f.images.None?
  {
    Form(Blank(RESET_KEYS), None)
  }

  /** `formData[key]` for a text key: the string, or `undefined` when the key is absent. */
  function Get(form: Form, key: string): Json {
    if key in form.text then Str(form.text[key]) else Undefined
  }

  /** A text field is truthy: present and non-empty. */
  predicate Filled(form: Form, key: string) {
    key in form.text && form.text[key] != ""
  }

  // ---------------------------------------------------------------- the handlers, as values

  /** `handleCategoryChange`. */
  function WithCategory(form: Form, value: string): (r: Form)
    ensures Get(r, "category") == Str(value) && Get(r, "subCategory") == Str("")
    ensures forall k :: k != "category" && k != "subCategory" ==> Get(r, k) == Get(form, k)
    ensures r.images == form.images
  {
    Form(form.text["category" := value]["subCategory" := ""], form.images)
  }

  /** `handleSingleImageChange(index)` with the chosen file, if any. */
  function WithImage(form: Form, index: nat, file: Option<FileRef>): (r: Form)
    requires form.images.Some? && index < |form.images.value|
    ensures file.None? ==> r == form
    ensures r.text == form.text && r.images.Some? && |r.images.value| == |form.images.value|
    ensures file.Some? ==> r.images.value[index] == file
    ensures forall i :: 0 <= i < |form.images.value| && i != index ==> r.images.value[i] == form.images.value[i]
  {
    if file.Some? then Form(form.text, Some(form.images.value[index := file])) else form
  }

  /** `handleClearImage(index)`. */
  function WithoutImage(form: Form, index: nat): (r: Form)
    requires form.images.Some? && index < |form.images.value|
    ensures r.text == form.text && r.images.Some? && |r.images.value| == |form.images.value|
    ensures r.images.value[index].None?
    ensures forall i :: 0 <= i < |form.images.value| && i != index ==> r.images.value[i] == form.images.value[i]
  {
    Form(form.text, Some(form.images.value[index := None]))
  }

  /** `handleChange` and the sub-category select: one text field replaced. */
  function WithField(form: Form, name: string, value: string): (r: Form)
    ensures Get(r, name) == Str(value)
    ensures forall k :: k != name ==> Get(r, k) == Get(form, k)
    ensures r.images == form.images
  {
    Form(form.text[name := value], form.images)
  }

  /** Clearing a slot undoes choosing a file for it, whatever the slot held before it was empty. */
  lemma {:induction false} ClearUndoesChoose(form: Form, index: nat, file: FileRef)
    requires form.images.Some? && index < |form.images.value| && form.images.value[index].None?
    ensures WithoutImage(WithImage(form, index, Some(file)), index) == form
  {
    assert WithImage(form, index, Some(file)).images.value[index := None] == form.images.value;
  }

  /** A category change empties the sub-category, which the sub-category select then requires again; the
      select is enabled exactly when the new category is non-empty. */
  lemma CategoryChangeResetsSubCategory(form: Form, value: string)
    ensures !Filled(WithCategory(form, value), "subCategory")
    ensures Filled(WithCategory(form, value), "category") <==> value != ""
    ensures Filled(form, "productName") <==> Filled(WithCategory(form, value), "productName")
  {
  }

  // ---------------------------------------------------------------- validateForm

  /** `String.prototype.trim`'s white space: the characters `parseFloat` skips before the number. */
  predicate IsJsSpace(c: char) {
    || c == ' ' || c == '\t' || c == '\n' || c == '\r' || c == '\U{B}' || c == '\U{C}'
    || c == '\U{A0}' || c == '\U{1680}' || ('\U{2000}' <= c <= '\U{200A}')
    || c == '\U{2028}' || c == '\U{2029}' || c == '\U{202F}' || c == '\U{205F}' || c == '\U{3000}'
    || c == '\U{FEFF}'
  }

  /** The input with its leading white space removed. */
  function TrimStart(s: string): (t: string)
    ensures |t| <= |s|
    ensures s == [] || !IsJsSpace(s[0]) ==> t == s
    ensures t == [] || !IsJsSpace(t[0])
  {
    if s != [] && IsJsSpace(s[0]) then TrimStart(s[1..]) else s
  }

  /** `!isNaN(parseFloat(s))`: after white space and an optional sign, the text starts a decimal literal
      (a digit, or a point and a digit) or reads `Infinity`. */
  predicate ParsesAsNumber(s: string) {
    var t := TrimStart(s);
    StartsNumber(if |t| > 0 && (t[0] == '+' || t[0] == '-') then t[1..] else t)
  }

  /** The text, sign removed, begins a decimal literal or `Infinity`. */
  predicate StartsNumber(u: string) {
    || "Infinity" <= u
    || (|u| > 0 && Text.IsDigit(u[0]))
    || (|u| > 1 && u[0] == '.' && Text.IsDigit(u[1]))
  }

  /** `parseFloat` reads a leading number and ignores what follows it. */
  lemma ParsesAsNumberAccepts()
    ensures ParsesAsNumber("499") && ParsesAsNumber(" 12.5kg") && ParsesAsNumber("-.5")
  {
    assert TrimStart("499") == "499";
    assert " 12.5kg"[1..] == "12.5kg";
    assert TrimStart(" 12.5kg") == "12.5kg";
    assert TrimStart("-.5") == "-.5";
    assert "-.5"[1..] == ".5" && StartsNumber(".5");
  }

  /** Text that does not start a number is not a number, even when a number follows. */
  lemma ParsesAsNumberRejects()
    ensures !ParsesAsNumber("abc") && !ParsesAsNumber(".") && !ParsesAsNumber("")
  {
    assert TrimStart("abc") == "abc" && !StartsNumber("abc");
    assert TrimStart(".") == "." && !StartsNumber(".");
    assert TrimStart("") == "";
  }

  /** Leading white space is skipped: whatever follows a run of it decides alone. */
  lemma {:induction false} TrimStartSkipsSpaces(s: string, k: nat)
    requires k <= |s| && forall j :: 0 <= j < k ==> IsJsSpace(s[j])
    ensures TrimStart(s) == TrimStart(s[k..])
    decreases k
  {
    if k > 0 {
      assert s[1..][k - 1..] == s[k..];
      TrimStartSkipsSpaces(s[1..], k - 1);
    }
  }

  /** Any text whose first character after white space (and an optional sign) is a digit is a number. */
  lemma {:induction false} LeadingDigitParses(s: string, k: nat)
    requires k < |s| && forall j :: 0 <= j < k ==> IsJsSpace(s[j])
    requires Text.IsDigit(s[k]) || (k + 1 < |s| && (s[k] == '+' || s[k] == '-') && Text.IsDigit(s[k + 1]))
    ensures ParsesAsNumber(s)
  {
    TrimStartSkipsSpaces(s, k);
    assert !IsJsSpace(s[k]);
    assert TrimStart(s) == s[k..];
    if !Text.IsDigit(s[k]) {
      assert s[k..][1..][0] == s[k + 1];
    }
  }

  /** Conversely, a number starts, after white space, with a sign, a digit, a point or the `I` of
      `Infinity`: text starting with anything else is never a number. */
  lemma {:induction false} NumberStartsWithSignDigitOrPoint(s: string)
    requires ParsesAsNumber(s)
    ensures var t := TrimStart(s);
      t != [] && (t[0] in "+-.I" || Text.IsDigit(t[0]))
  {
    var t := TrimStart(s);
    if t != [] && (t[0] == '+' || t[0] == '-') {
    } else {
      assert StartsNumber(t);
      if "Infinity" <= t {
        assert t[0] == 'I';
      }
    }
  }

  /** The messages for the falsy fields among `checks`, in order. */
  function MissingMessages(form: Form, checks: seq<(string, string)>): (ms: seq<string>)
    ensures |ms| <= |checks|
  {
    if checks == [] then [] else Missing(form, checks[0]) + MissingMessages(form, checks[1..])
  }

  /** One check's contribution: its message when its field is falsy. */
  function Missing(form: Form, check: (string, string)): (ms: seq<string>)
    ensures |ms| <= 1
  {
    if Filled(form, check.0) then [] else [check.1]
  }

  /** Five checks contribute their messages one after another. */
  lemma {:induction false} MissingMessagesOfFive(form: Form, c: seq<(string, string)>)
    requires |c| == 5
    ensures MissingMessages(form, c)
      == Missing(form, c[0]) + Missing(form, c[1]) + Missing(form, c[2]) + Missing(form, c[3]) + Missing(form, c[4])
  {
    var c1 := c[1..];
    var c2 := c1[1..];
    var c3 := c2[1..];
    var c4 := c3[1..];
    assert c1[0] == c[1] && c2[0] == c[2] && c3[0] == c[3] && c4[0] == c[4];
    assert c4[1..] == [];
    assert MissingMessages(form, c4) == Missing(form, c[4]);
    var m3, m4 := Missing(form, c[3]), Missing(form, c[4]);
    var m2, m1, m0 := Missing(form, c[2]), Missing(form, c[1]), Missing(form, c[0]);
    assert MissingMessages(form, c3) == m3 + m4;
    assert MissingMessages(form, c2) == m2 + (m3 + m4);
    assert MissingMessages(form, c1) == m1 + (m2 + (m3 + m4));
    assert MissingMessages(form, c) == m0 + (m1 + (m2 + (m3 + m4)));
    assert m0 + (m1 + (m2 + (m3 + m4))) == m0 + m1 + m2 + m3 + m4;
  }

  /** The list `validateForm` returns. */
  function ValidationErrors(form: Form): seq<string> {
    MissingMessages(form, REQUIRED)
      + (if Filled(form, "price") && !ParsesAsNumber(form.text["price"]) then [PRICE_NOT_NUMBER] else [])
  }

  /** A message among `checks` is reported exactly when its field is falsy, when the messages are distinct. */
  lemma {:induction false} MissingMessagesExactly(form: Form, checks: seq<(string, string)>, j: nat)
    requires j < |checks|
    requires forall a, b :: 0 <= a < b < |checks| ==> checks[a].1 != checks[b].1
    ensures checks[j].1 in MissingMessages(form, checks) <==> !Filled(form, checks[j].0)
  {
    if j == 0 {
      MissingMessagesFrom(form, checks[1..], checks[0].1);
    } else {
      MissingMessagesExactly(form, checks[1..], j - 1);
    }
  }

  /** Every message reported comes from one of the checks. */
  lemma {:induction false} MissingMessagesFrom(form: Form, checks: seq<(string, string)>, m: string)
    ensures m in MissingMessages(form, checks) ==> exists i :: 0 <= i < |checks| && checks[i].1 == m && !Filled(form, checks[i].0)
  {
    if checks != [] {
      MissingMessagesFrom(form, checks[1..], m);
      if m in MissingMessages(form, checks[1..]) {
        var i :| 0 <= i < |checks[1..]| && checks[1..][i].1 == m && !Filled(form, checks[1..][i].0);
        assert checks[i + 1].1 == m;
      }
    }
  }

  /** Nothing is reported exactly when all checks pass. */
  lemma {:induction false} MissingMessagesEmpty(form: Form, checks: seq<(string, string)>)
    ensures MissingMessages(form, checks) == [] <==> forall i :: 0 <= i < |checks| ==> Filled(form, checks[i].0)
  {
    if checks != [] {
      MissingMessagesEmpty(form, checks[1..]);
      assert forall i :: 1 <= i < |checks| ==> checks[i] == checks[1..][i - 1];
    }
  }

  /** The list is empty iff all five fields are filled and the price reads as a number; each "required"
      message is there iff its field is falsy; the number message is there iff a filled price does not
      parse. */
  lemma {:induction false} ValidationErrorsExactly(form: Form)
    ensures ValidationErrors(form) == [] <==>
              && Filled(form, "productName") && Filled(form, "category") && Filled(form, "subCategory")
              && Filled(form, "price") && Filled(form, "description") && ParsesAsNumber(form.text["price"])
    ensures forall j :: 0 <= j < |REQUIRED| ==> (REQUIRED[j].1 in ValidationErrors(form) <==> !Filled(form, REQUIRED[j].0))
    ensures PRICE_NOT_NUMBER in ValidationErrors(form) <==> Filled(form, "price") && !ParsesAsNumber(form.text["price"])
  {
    MissingMessagesEmpty(form, REQUIRED);
    MissingMessagesFrom(form, REQUIRED, PRICE_NOT_NUMBER);
    assert REQUIRED[0].0 == "productName" && REQUIRED[1].0 == "category" && REQUIRED[2].0 == "subCategory";
    assert REQUIRED[3].0 == "price" && REQUIRED[4].0 == "description";
    forall j | 0 <= j < |REQUIRED|
      ensures REQUIRED[j].1 in ValidationErrors(form) <==> !Filled(form, REQUIRED[j].0)
    {
      MissingMessagesExactly(form, REQUIRED, j);
    }
  }

  // ---------------------------------------------------------------- handleSubmit

  /** The object `handleSubmit` posts. `price` is the text `Number()` is applied to. */
  datatype ServiceData = ServiceData(
    name: Json, productName: Json, category: Json, subCategory: string, price: Json, description: Json,
    offers: string, review: string, rating: int, images: seq<Json>, isAvailable: bool, duration: int)

  /** The payload built from the form. */
  function Payload(form: Form): (d: ServiceData)
    ensures d.name == d.productName
    ensures d.subCategory == FIXED_SUB_CATEGORY && d.offers == "0" && d.review == "0"
    ensures d.rating == 0 && d.isAvailable && d.duration == 0 && |d.images| == 1
    ensures d.productName == Get(form, "productName") && d.images == [Get(form, "imageUrl")]
    ensures d.category == Get(form, "category") && d.price == Get(form, "price")
    ensures d.description == Get(form, "description")
  {
    ServiceData(
      Get(form, "productName"), Get(form, "productName"), Get(form, "category"), FIXED_SUB_CATEGORY,
      Get(form, "price"), Get(form, "description"), "0", "0", 0, [Get(form, "imageUrl")], true, 0)
  }

  /** The payload reads exactly the five fields the reset keeps: the chosen sub-category, the other text
      fields and the uploaded images never reach the backend. */
  lemma {:induction false} PayloadReadsResetKeys(f: Form, g: Form)
    requires forall i :: 0 <= i < |RESET_KEYS| ==> Get(f, RESET_KEYS[i]) == Get(g, RESET_KEYS[i])
    ensures Payload(f) == Payload(g)
  {
    assert RESET_KEYS[0] == "productName" && RESET_KEYS[1] == "description" && RESET_KEYS[2] == "price";
    assert RESET_KEYS[3] == "category" && RESET_KEYS[4] == "imageUrl";
  }

  /** Submitting does not consult `validateForm`: the untouched initial form fails all five checks, and
      it is posted all the same, with empty name and category. */
  lemma {:induction false} SubmitIgnoresValidation()
    ensures |ValidationErrors(InitialForm())| == 5
    ensures Payload(InitialForm()).name == Str("") && Payload(InitialForm()).category == Str("")
  {
    var f := InitialForm();
    assert forall i :: 0 <= i < |REQUIRED| ==> !Filled(f, REQUIRED[i].0);
    assert MissingMessages(f, REQUIRED[4..]) == ["Description is required"];
    assert MissingMessages(f, REQUIRED[3..]) == ["Price is required"] + MissingMessages(f, REQUIRED[4..]);
    assert MissingMessages(f, REQUIRED[2..]) == ["Sub-category is required"] + MissingMessages(f, REQUIRED[3..]);
    assert MissingMessages(f, REQUIRED[1..]) == ["Category is required"] + MissingMessages(f, REQUIRED[2..]);
  }

  /** How the post settles, as `handleSubmit` sees it. */
  datatype Submitted = Created | NoBody | Failed

  function SubmitOutcome(o: Http.Outcome): (s: Submitted)
    ensures s == Failed <==> o.Rejected?
    ensures s == Created <==> o.Resolved? && Truthy(o.body)
  {
    match Http.Settle(o)
    case Ok(response) => if Truthy(response.data) then Created else NoBody
    case Err(_) => Failed
  }

  /** After a successful submit the image grid, which maps over `formData.images`, has nothing to map:
      the next render throws, and the form has lost its sub-category, which validation would report. */
  lemma {:induction false} ResetBreaksTheForm()
    ensures ResetForm().images.None? && InitialForm().images.Some?
    ensures "subCategory" !in ResetForm().text && "subCategory" in InitialForm().text
    ensures "Sub-category is required" in ValidationErrors(ResetForm())
  {
    ValidationErrorsExactly(ResetForm());
    assert REQUIRED[2] == ("subCategory", "Sub-category is required");
  }

  // ---------------------------------------------------------------- the component

  class ServiceForm {
    var form: Form
    var loading: bool
    var success: bool
    var error: Option<string>

    constructor ()
      ensures form == InitialForm() && !loading && !success && error.None?
    {
      form := InitialForm();
      loading := false;
      success := false;
      error := None;
    }

    method HandleCategoryChange(value: string)
      modifies this
      ensures form == WithCategory(old(form), value)
      ensures loading == old(loading) && success == old(success) && error == old(error)
    {
      form := Form(form.text["category" := value]["subCategory" := ""], form.images);
    }

    /** The sub-category select's `onChange`. */
    method HandleSubCategoryChange(value: string)
      modifies this
      ensures form == WithField(old(form), "subCategory", value)
      ensures loading == old(loading) && success == old(success) && error == old(error)
    {
      form := Form(form.text["subCategory" := value], form.images);
    }

    /** `handleChange`, wired to the text inputs only. */
    method HandleChange(name: string, value: string)
      requires name != IMAGES
      modifies this
      ensures form == WithField(old(form), name, value)
      ensures loading == old(loading) && success == old(success) && error == old(error)
    {
      form := Form(form.text[name := value], form.images);
    }

    /** `handleSingleImageChange(index)`: copy the slots, write one, store the copy. The handler exists
        only for a rendered slot. */
    method HandleSingleImageChange(index: nat, file: Option<FileRef>)
      requires form.images.Some? && index < |form.images.value|
      modifies this
      ensures form == WithImage(old(form), index, file)
      ensures loading == old(loading) && success == old(success) && error == old(error)
    {
      if file.Some? {
        var slots := form.images.value;
        var newImages := new Option<FileRef>[|slots|](i requires 0 <= i < |slots| => slots[i]);
        newImages[index] := file;
        assert newImages[..] == slots[index := file];
        form := Form(form.text, Some(newImages[..]));
      }
    }

    /** `handleClearImage(index)`. */
    method HandleClearImage(index: nat)
      requires form.images.Some? && index < |form.images.value|
      modifies this
      ensures form == WithoutImage(old(form), index)
      ensures loading == old(loading) && success == old(success) && error == old(error)
    {
      var slots := form.images.value;
      var newImages := new Option<FileRef>[|slots|](i requires 0 <= i < |slots| => slots[i]);
      newImages[index] := None;
      assert newImages[..] == slots[index := None];
      form := Form(form.text, Some(newImages[..]));
    }

    /** `validateForm`: one push per falsy field, then the number check. */
    method ValidateForm() returns (errors: seq<string>)
      ensures errors == ValidationErrors(form)
    {
      MissingMessagesUnrolled(form);
      errors := [];
      if !Filled(form, "productName") { errors := errors + ["Product name is required"]; }
      if !Filled(form, "category") { errors := errors + ["Category is required"]; }
      if !Filled(form, "subCategory") { errors := errors + ["Sub-category is required"]; }
      if !Filled(form, "price") { errors := errors + ["Price is required"]; }
      if !Filled(form, "description") { errors := errors + ["Description is required"]; }
      if Filled(form, "price") && !ParsesAsNumber(form.text["price"]) {
        errors := errors + [PRICE_NOT_NUMBER];
      }
    }

    /** `handleSubmit`: posts the payload, then resets the form on a truthy reply or sets the error on a
        failure; `loading` ends false either way. */
    method HandleSubmit(o: Http.Outcome, browser: Web.Browser) returns (sent: ServiceData)
      modifies this, browser
      ensures sent == Payload(old(form))
      ensures SubmitOutcome(o) == Created ==> form == ResetForm() && success && error.None?
      ensures SubmitOutcome(o) == NoBody ==> form == old(form) && success == old(success) && error.None?
      ensures SubmitOutcome(o) == Failed ==> form == old(form) && success == old(success) && error == Some(CREATE_FAILED)
      ensures !loading
      ensures browser.storage == Http.StorageAfter(o, old(browser.storage))
      ensures browser.location == Http.LocationAfter(o, old(browser.location))
    {
      loading := true;
      error := None;
      sent := Payload(form);
      var _, response := Http.Send(Api.SERVICES_URL, Http.DEFAULT_HEADERS, o, browser);
      match response {
        case Ok(r) =>
          if Truthy(r.data) {
            success := true;
            form := ResetForm();
          }
        case Err(_) =>
          error := Some(CREATE_FAILED);
      }
      loading := false;
    }

    /** Closing the success snackbar. */
    method DismissSuccess()
      modifies this
      ensures !success && form == old(form) && loading == old(loading) && error == old(error)
    {
      success := false;
    }

    /** Closing the error snackbar. */
    method DismissError()
      modifies this
      ensures error.None? && form == old(form) && loading == old(loading) && success == old(success)
    {
      error := None;
    }
  }

  /** `MissingMessages` over the five checks, written out as `validateForm`'s five `if`s. */
  lemma {:induction false} MissingMessagesUnrolled(form: Form)
    ensures MissingMessages(form, REQUIRED)
      == (if Filled(form, "productName") then [] else ["Product name is required"])
       + (if Filled(form, "category") then [] else ["Category is required"])
       + (if Filled(form, "subCategory") then [] else ["Sub-category is required"])
       + (if Filled(form, "price") then [] else ["Price is required"])
       + (if Filled(form, "description") then [] else ["Description is required"])
  {
    MissingMessagesOfFive(form, REQUIRED);
  }
}
