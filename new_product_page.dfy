/** The admin form that creates a product: the field record updated by
    `handleInputChange`, the three editable string lists (image URLs, sizes,
    colours) with their change, add and remove helpers, and the lists as
    they are submitted, with blank entries dropped. Parsing of price and
    stock and the POST itself are not modelled. */
module NewProductPage {
  import opened Seqs

  // ---- JavaScript's String.prototype.trim ----

  /** The characters `trim` strips: white space and line terminators as the
      ECMAScript standard (sections 12.2 and 12.3) lists them. */
  predicate IsJsWhitespace(c: char) {
    c == ' ' || c == '\t' || c == '\n' || c == '\r' || c == '\U{000B}' || c == '\U{000C}'
    || c == '\U{00A0}' || c == '\U{1680}' || ('\U{2000}' <= c <= '\U{200A}')
    || c == '\U{2028}' || c == '\U{2029}' || c == '\U{202F}' || c == '\U{205F}'
    || c == '\U{3000}' || c == '\U{FEFF}'
  }

  /** `s` with its leading white space removed. */
  function TrimStart(s: string): (r: string)
    ensures |r| <= |s| && r == s[|s| - |r|..]
    ensures forall i :: 0 <= i < |s| - |r| ==> IsJsWhitespace(s[i])
    ensures r != [] ==> !IsJsWhitespace(r[0])
  {
    if s != [] && IsJsWhitespace(s[0]) then TrimStart(s[1..]) else s
  }

  /** `s` with its trailing white space removed. */
  function TrimEnd(s: string): (r: string)
    ensures |r| <= |s| && r == s[..|r|]
    ensures forall i :: |r| <= i < |s| ==> IsJsWhitespace(s[i])
    ensures r != [] ==> !IsJsWhitespace(r[|r| - 1])
  {
    if s != [] && IsJsWhitespace(s[|s| - 1]) then TrimEnd(s[..|s| - 1]) else s
  }

  function Trim(s: string): (r: string)
    ensures |r| <= |s|
    ensures r != [] ==> !IsJsWhitespace(r[0]) && !IsJsWhitespace(r[|r| - 1])
  {
    TrimEnd(TrimStart(s))
  }

  /** `x.trim() !== ''`. */
  function NotBlank(): string -> bool {
    x => Trim(x) != ""
  }

  /** An entry trims to the empty string exactly when every character of it
      is white space. */
  lemma {:induction false} BlankIffAllWhitespace(s: string)
    ensures Trim(s) == "" <==> forall i :: 0 <= i < |s| ==> IsJsWhitespace(s[i])
  {
  }

  // ---- the editable lists ----

  const InitialImages: seq<string> := [""]
  const InitialSizes: seq<string> := ["S", "M", "L", "XL"]
  const InitialColors: seq<string> := ["Black", "White"]

  /** `handleArrayChange`: the entry at `index` becomes `value`. */
  function ReplaceAt(xs: seq<string>, index: nat, value: string): (r: seq<string>)
    requires index < |xs|
    ensures |r| == |xs| && r[index] == value
    ensures forall j :: 0 <= j < |xs| && j != index ==> r[j] == xs[j]
  {
    xs[index := value]
  }

  /** `addArrayItem`: one more, empty, entry at the end. */
  function AppendBlank(xs: seq<string>): (r: seq<string>)
    ensures |r| == |xs| + 1 && r[..|xs|] == xs && r[|xs|] == ""
  {
    xs + [""]
  }

  /** `removeArrayItem`: keep every entry whose position is not `index`. */
  function RemoveAt(xs: seq<string>, index: nat): (r: seq<string>)
    ensures index < |xs| ==> |r| == |xs| - 1
    ensures index < |xs| ==> forall j :: 0 <= j < index ==> r[j] == xs[j]
    ensures index < |xs| ==> forall j :: index <= j < |r| ==> r[j] == xs[j + 1]
    ensures index >= |xs| ==> r == xs
  {
    if index < |xs| then xs[..index] + xs[index + 1..] else xs
  }

  /** A button press on one list. */
  datatype ListAction = Change(index: nat, value: string) | Add | Remove(index: nat)

  /** The actions the image list offers: an input per entry, the add
      button, and a remove button per entry only while there are at least
      two entries. */
  predicate ImageActionOffered(images: seq<string>, a: ListAction) {
    match a
    case Change(i, _) => i < |images|
    case Add => true
    case Remove(i) => |images| > 1 && i < |images|
  }

  function Apply(xs: seq<string>, a: ListAction): (r: seq<string>)
    requires a.Change? ==> a.index < |xs|
    ensures |xs| - 1 <= |r| <= |xs| + 1
  {
    match a
    case Change(i, v) => ReplaceAt(xs, i, v)
    case Add => AppendBlank(xs)
    case Remove(i) => RemoveAt(xs, i)
  }

  /** The image list after a sequence of presses, each on a control that
      was on screen at the time. */
  function RunImages(images: seq<string>, actions: seq<ListAction>): (r: seq<string>)
    ensures |r| <= |images| + |actions|
    decreases |actions|
  {
    if actions == [] then images
    else if ImageActionOffered(images, actions[0]) then RunImages(Apply(images, actions[0]), actions[1..])
    else RunImages(images, actions[1..])
  }

  /** The page starts with one image field and only ever offers to remove
      one while there are two or more, so the image list is never empty. */
  lemma {:induction false} ImagesNeverEmpty(images: seq<string>, actions: seq<ListAction>)
    requires images != []
    ensures RunImages(images, actions) != []
    decreases |actions|
  {
    if actions != [] {
      if ImageActionOffered(images, actions[0]) {
        ImagesNeverEmpty(Apply(images, actions[0]), actions[1..]);
      } else {
        ImagesNeverEmpty(images, actions[1..]);
      }
    }
  }

  lemma {:induction false} StartsWithOneImage(actions: seq<ListAction>)
    ensures RunImages(InitialImages, actions) != []
  {
    ImagesNeverEmpty(InitialImages, actions);
  }

  // ---- submission ----

  /** `list.filter(x => x.trim() !== '')`. */
  function Submitted(xs: seq<string>): (r: seq<string>)
    ensures |r| <= |xs|
  {
    Filter(xs, NotBlank())
  }

  /** The submitted list holds every non-blank entry as often as the form
      does and no blank one. */
  lemma {:induction false} SubmittedDropsExactlyBlanks(xs: seq<string>, x: string)
    ensures multiset(Submitted(xs))[x] == if Trim(x) == "" then 0 else multiset(xs)[x]
    ensures forall i :: 0 <= i < |Submitted(xs)| ==> Trim(Submitted(xs)[i]) != ""
  {
    FilterMultiset(xs, NotBlank(), x);
  }

  /** Submission keeps the entries in the order they were entered. */
  lemma {:induction false} SubmittedKeepsOrder(a: seq<string>, b: seq<string>)
    ensures Submitted(a + b) == Submitted(a) + Submitted(b)
  {
    FilterConcat(a, b, NotBlank());
  }

  // ---- the field record ----

  datatype FieldValue = Text(text: string) | Flag(flag: bool)

  /** `e.target`: the control's name, value, type and checked flag. */
  datatype InputTarget = InputTarget(name: string, value: string, inputType: string, checked: bool)

  const InitialForm: map<string, FieldValue> := map[
    "name" := Text(""), "description" := Text(""), "price" := Text(""),
    "category" := Text("men"), "subcategory" := Text(""), "stock" := Text(""),
    "featured" := Flag(false)]

  /** What a control stores: its checked flag for a checkbox, its value
      otherwise. */
  function ControlValue(t: InputTarget): (v: FieldValue)
    ensures v.Flag? <==> t.inputType == "checkbox"
    ensures v.Flag? ==> v.flag == t.checked
    ensures v.Text? ==> v.text == t.value
  {
    if t.inputType == "checkbox" then Flag(t.checked) else Text(t.value)
  }

  /** `handleInputChange`: the field named by the control takes the checked
      flag of a checkbox or the value of any other control; every other
      field keeps its value. */
  function HandleInputChange(form: map<string, FieldValue>, t: InputTarget): (r: map<string, FieldValue>)
    ensures r.Keys == form.Keys + {t.name}
    ensures t.inputType == "checkbox" ==> r[t.name] == Flag(t.checked)
    ensures t.inputType != "checkbox" ==> r[t.name] == Text(t.value)
    ensures forall k :: k in form && k != t.name ==> r[k] == form[k]
  {
    form[t.name := ControlValue(t)]
  }

  /** A run of change events, applied in the order they fire. */
  function ApplyEdits(form: map<string, FieldValue>, ts: seq<InputTarget>): (r: map<string, FieldValue>)
    decreases |ts|
  {
    if ts == [] then form else ApplyEdits(HandleInputChange(form, ts[0]), ts[1..])
  }

  /** Every control of the page names a field of the record, so no run of
      edits adds a field; a field no control touched keeps its value, and
      the field of the last edit holds what that control stored. */
  lemma {:induction false} EditingKeepsFields(form: map<string, FieldValue>, ts: seq<InputTarget>)
    requires forall i :: 0 <= i < |ts| ==> ts[i].name in form
    ensures ApplyEdits(form, ts).Keys == form.Keys
    ensures forall k :: k in form && (forall i :: 0 <= i < |ts| ==> ts[i].name != k) ==>
      ApplyEdits(form, ts)[k] == form[k]
    ensures |ts| > 0 ==> ApplyEdits(form, ts)[ts[|ts| - 1].name] == ControlValue(ts[|ts| - 1])
    decreases |ts|
  {
    if ts != [] {
      var next := HandleInputChange(form, ts[0]);
      var rest := ts[1..];
      assert forall i :: 0 <= i < |rest| ==> rest[i] == ts[i + 1];
      EditingKeepsFields(next, rest);
      if |ts| == 1 {
        assert rest == [];
      } else {
        assert rest[|rest| - 1] == ts[|ts| - 1];
      }
      forall k | k in form && (forall i :: 0 <= i < |ts| ==> ts[i].name != k)
        ensures ApplyEdits(form, ts)[k] == form[k]
      {
        assert ts[0].name != k;
        assert forall i :: 0 <= i < |rest| ==> rest[i].name != k;
      }
    }
  }
}
