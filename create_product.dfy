/** The product creation form: the validation schema (shared with the edit
    form), the list of chosen image files, and the multipart body the submit
    handler assembles from the form values and the files. */
module ProductForm {
  import opened Js

  /** A number input as Formik holds it: cleared, or a parsed number. */
  datatype NumberField = Blank | Num(x: real)

  /** The five form values, in the order of `initialValues`. */
  datatype ProductValues = ProductValues(name: string, kind: string, brand: string, price: NumberField, stock: NumberField)

  /** Every field starts empty. */
  const InitialValues := ProductValues("", "", "", Blank, Blank)

  predicate IsInteger(x: real)
  {
    x.Floor as real == x
  }

  /** The schema: the three text fields are required, the price is a
      positive number and the stock a whole number of at least 0. */
  predicate ProductSchema(v: ProductValues)
  {
    && v.name != "" && v.kind != "" && v.brand != ""
    && v.price.Num? && v.price.x > 0.0
    && v.stock.Num? && IsInteger(v.stock.x) && v.stock.x >= 0.0
  }

  /** The untouched form does not pass, so nothing is submitted before the
      user fills it in. */
  lemma InitialValuesRejected()
    ensures !ProductSchema(InitialValues)
  {
  }

  /** Each field of an accepted form is required on its own: clearing any
      one of them makes the schema reject. The price must be strictly
      positive, while a stock of 0 is accepted and a fractional stock is not. */
  lemma EachFieldRequired(v: ProductValues)
    requires ProductSchema(v)
    ensures !ProductSchema(v.(name := "")) && !ProductSchema(v.(kind := "")) && !ProductSchema(v.(brand := ""))
    ensures !ProductSchema(v.(price := Blank)) && !ProductSchema(v.(stock := Blank))
    ensures !ProductSchema(v.(price := NumberField.Num(0.0))) && ProductSchema(v.(stock := NumberField.Num(0.0)))
    ensures !ProductSchema(v.(stock := NumberField.Num(0.5)))
  {
    assert (0.5).Floor == 0;
  }

  /** The stock of an accepted form is a count of units. */
  function StockCount(v: ProductValues): (n: nat)
    requires ProductSchema(v)
    ensures n as real == v.stock.x
  {
    v.stock.x.Floor
  }

  /** A chosen file; `FileRef` stands for the browser's File object. */
  type FileRef = string

  /** A file together with the input it was chosen in. */
  datatype Upload = Upload(file: FileRef, fieldName: string)

  /** The `map` of `handleFileChange`: the selection, in order, each file
      tagged with the input's field name. */
  function Tagged(selected: seq<FileRef>, fieldName: string): (r: seq<Upload>)
    ensures |r| == |selected|
    ensures forall i :: 0 <= i < |r| ==> r[i] == Upload(selected[i], fieldName)
  {
    if selected == [] then [] else [Upload(selected[0], fieldName)] + Tagged(selected[1..], fieldName)
  }

  /** A value appended to the multipart body. */
  datatype FormValue = TextValue(s: string) | NumberValue(n: real) | FileValue(f: FileRef)

  /** The body, as the sequence of its `append` calls. */
  type FormData = seq<(string, FormValue)>

  function FieldValue(f: NumberField): FormValue
  {
    match f
    case Blank => TextValue("")
    case Num(x) => NumberValue(x)
  }

  /** `Object.keys(values)` paired with the values, in key order. */
  function ValueEntries(v: ProductValues): (r: FormData)
    ensures Keys(r) == ["name", "type", "brand", "price", "stock"]
  {
    [("name", TextValue(v.name)), ("type", TextValue(v.kind)), ("brand", TextValue(v.brand)),
     ("price", FieldValue(v.price)), ("stock", FieldValue(v.stock))]
  }

  /** The key a file is appended under. */
  function KeyFor(fieldName: string): string
  {
    if fieldName == "image" then "image" else "images"
  }

  /** The appends of the file loop. */
  function FileParts(files: seq<Upload>): (r: FormData)
    ensures |r| == |files|
    ensures forall i :: 0 <= i < |r| ==> r[i] == (KeyFor(files[i].fieldName), FileValue(files[i].file))
  {
    if files == [] then [] else [(KeyFor(files[0].fieldName), FileValue(files[0].file))] + FileParts(files[1..])
  }

  /** The whole body: every value, then every file. */
  function FormDataOf(v: ProductValues, files: seq<Upload>): FormData
  {
    ValueEntries(v) + FileParts(files)
  }

  /** `formData.getAll(k)`: the values appended under k, in append order. */
  function PartsUnder(data: FormData, k: string): seq<FormValue>
  {
    if data == [] then [] else (if data[0].0 == k then [data[0].1] else []) + PartsUnder(data[1..], k)
  }

  /** The files chosen in the primary input, in order. */
  function PrimaryFiles(files: seq<Upload>): seq<FormValue>
  {
    if files == [] then []
    else (if files[0].fieldName == "image" then [FileValue(files[0].file)] else []) + PrimaryFiles(files[1..])
  }

  /** The files chosen in any other input, in order. */
  function AdditionalFiles(files: seq<Upload>): seq<FormValue>
  {
    if files == [] then []
    else (if files[0].fieldName != "image" then [FileValue(files[0].file)] else []) + AdditionalFiles(files[1..])
  }

  lemma {:induction false} PartsUnderAppend(a: FormData, b: FormData, k: string)
    ensures PartsUnder(a + b, k) == PartsUnder(a, k) + PartsUnder(b, k)
  {
    if a != [] {
      assert (a + b)[0] == a[0] && (a + b)[1..] == a[1..] + b;
      PartsUnderAppend(a[1..], b, k);
    } else {
      assert a + b == b;
    }
  }

  /** The file loop puts the primary files under "image" and all others
      under "images", each in the order chosen. */
  lemma {:induction false} FilePartsUnder(files: seq<Upload>)
    ensures PartsUnder(FileParts(files), "image") == PrimaryFiles(files)
    ensures PartsUnder(FileParts(files), "images") == AdditionalFiles(files)
  {
    if files != [] {
      var r := FileParts(files);
      assert r[1..] == FileParts(files[1..]);
      FilePartsUnder(files[1..]);
    }
  }

  /** Each file goes under exactly one of the two keys. */
  lemma {:induction false} FilesSplit(files: seq<Upload>)
    ensures |PrimaryFiles(files)| + |AdditionalFiles(files)| == |files|
  {
    if files != [] {
      FilesSplit(files[1..]);
    }
  }

  /** What the server receives under each key: every value once under its
      own name, then the files split by the input they came from. */
  lemma FormDataContents(v: ProductValues, files: seq<Upload>)
    ensures PartsUnder(FormDataOf(v, files), "name") == [TextValue(v.name)]
    ensures PartsUnder(FormDataOf(v, files), "type") == [TextValue(v.kind)]
    ensures PartsUnder(FormDataOf(v, files), "brand") == [TextValue(v.brand)]
    ensures PartsUnder(FormDataOf(v, files), "price") == [FieldValue(v.price)]
    ensures PartsUnder(FormDataOf(v, files), "stock") == [FieldValue(v.stock)]
    ensures PartsUnder(FormDataOf(v, files), "image") == PrimaryFiles(files)
    ensures PartsUnder(FormDataOf(v, files), "images") == AdditionalFiles(files)
  {
    var e := ValueEntries(v);
    assert Keys(e)[0] == "name" && Keys(e)[1] == "type" && Keys(e)[2] == "brand";
    assert Keys(e)[3] == "price" && Keys(e)[4] == "stock";
    PartsUnderOnly(e, 0);
    PartsUnderOnly(e, 1);
    PartsUnderOnly(e, 2);
    PartsUnderOnly(e, 3);
    PartsUnderOnly(e, 4);
    PartsUnderNone(e, "image");
    PartsUnderNone(e, "images");
    FilePartsUnder(files);
    var tail := FileParts(files);
    FilePartsWithout(files, "name");
    FilePartsWithout(files, "type");
    FilePartsWithout(files, "brand");
    FilePartsWithout(files, "price");
    FilePartsWithout(files, "stock");
    PartsUnderAppend(e, tail, "name");
    PartsUnderAppend(e, tail, "type");
    PartsUnderAppend(e, tail, "brand");
    PartsUnderAppend(e, tail, "price");
    PartsUnderAppend(e, tail, "stock");
    PartsUnderAppend(e, tail, "image");
    PartsUnderAppend(e, tail, "images");
  }

  /** The values under a key that exactly one append used. */
  lemma {:induction false} PartsUnderOnly(e: FormData, i: nat)
    requires i < |e| && forall j :: 0 <= j < |e| && j != i ==> e[j].0 != e[i].0
    ensures PartsUnder(e, e[i].0) == [e[i].1]
  {
    if i == 0 {
      PartsUnderNone(e[1..], e[0].0);
    } else {
      assert e[1..][i - 1] == e[i];
      PartsUnderOnly(e[1..], i - 1);
    }
  }

  lemma {:induction false} PartsUnderNone(e: FormData, k: string)
    requires forall j :: 0 <= j < |e| ==> e[j].0 != k
    ensures PartsUnder(e, k) == []
  {
    if e != [] {
      PartsUnderNone(e[1..], k);
    }
  }

  /** No file is appended under a key other than "image" and "images". */
  lemma {:induction false} FilePartsWithout(files: seq<Upload>, k: string)
    requires k != "image" && k != "images"
    ensures PartsUnder(FileParts(files), k) == []
  {
    if files != [] {
      var r := FileParts(files);
      assert r[1..] == FileParts(files[1..]);
      FilePartsWithout(files[1..], k);
    }
  }

  /** The two `forEach` loops of `handleSubmit`. */
  method BuildFormData(v: ProductValues, files: seq<Upload>) returns (data: FormData)
    ensures data == FormDataOf(v, files)
  {
    var entries := ValueEntries(v);
    data := [];
    var i := 0;
    while i < |entries|
      invariant 0 <= i <= |entries|
      invariant data == entries[..i]
    {
      data := data + [entries[i]];
      i := i + 1;
    }
    assert entries[..i] == entries;
    var j := 0;
    while j < |files|
      invariant 0 <= j <= |files|
      invariant data == entries + FileParts(files[..j])
    {
      var key := if files[j].fieldName == "image" then "image" else "images";
      FilePartsSnoc(files, j);
      data := data + [(key, FileValue(files[j].file))];
      j := j + 1;
    }
    assert files[..j] == files;
  }

  lemma FilePartsSnoc(files: seq<Upload>, j: nat)
    requires j < |files|
    ensures FileParts(files[..j + 1]) == FileParts(files[..j]) + [(KeyFor(files[j].fieldName), FileValue(files[j].file))]
  {
    var l, r := FileParts(files[..j + 1]), FileParts(files[..j]) + [(KeyFor(files[j].fieldName), FileValue(files[j].file))];
    assert |l| == |r|;
    forall i | 0 <= i < |l| ensures l[i] == r[i] {
      assert files[..j + 1][i] == files[i];
      if i < j {
        assert files[..j][i] == files[i];
      }
    }
  }

  /** The form page's own state: the chosen files, the error text, and
      Formik's `isSubmitting`, which disables the submit button from a
      submission's start until its `finally`. */
  class CreateProductPage {
    var files: seq<Upload>
    var error: string
    var submitting: bool

    constructor ()
      ensures files == [] && error == "" && !submitting
    {
      files := [];
      error := "";
      submitting := false;
    }

    /** `handleFileChange(e, fieldName)`: the new files go after the ones
        already chosen, in selection order. */
    method HandleFileChange(selected: seq<FileRef>, fieldName: string)
      modifies this`files
      ensures files == old(files) + Tagged(selected, fieldName)
    {
      files := files + Tagged(selected, fieldName);
    }

    /** A press of the submit button. While a submission is pending the
        button is disabled and nothing happens; otherwise Formik validates,
        and only an accepted form raises the flag and has its body sent. */
    method PressSubmit(v: ProductValues) returns (sent: Option<FormData>)
      modifies this`submitting
      ensures sent.Some? <==> !old(submitting) && ProductSchema(v)
      ensures sent.Some? ==> sent.value == FormDataOf(v, files) && submitting
      ensures sent.None? ==> submitting == old(submitting)
    {
      sent := None;
      if !submitting && ProductSchema(v) {
        submitting := true;
        var data := BuildFormData(v, files);
        sent := Some(data);
      }
    }

    /** The end of a sent submission: "/products" on success, otherwise the
        server's message or a fixed text; the flag comes down either way. */
    method FinishSubmit(response: Response<()>) returns (navigateTo: Option<string>)
      modifies this`error, this`submitting
      ensures navigateTo.Some? <==> response.Ok?
      ensures navigateTo.Some? ==> navigateTo.value == "/products"
      ensures response.Failed? ==> error == NullOr(response.message, "Product creation failed")
      ensures response.Ok? ==> error == old(error)
      ensures !submitting
    {
      navigateTo := None;
      if response.Ok? {
        navigateTo := Some("/products");
      } else {
        error := NullOr(response.message, "Product creation failed");
      }
      submitting := false;
    }

    /** One press followed, when something was sent, by its response. */
    method HandleSubmit(v: ProductValues, response: Response<()>) returns (sent: Option<FormData>, navigateTo: Option<string>)
      modifies this`error, this`submitting
      ensures sent.Some? <==> !old(submitting) && ProductSchema(v)
      ensures sent.Some? ==> sent.value == FormDataOf(v, files)
      ensures navigateTo.Some? <==> sent.Some? && response.Ok?
      ensures navigateTo.Some? ==> navigateTo.value == "/products"
      ensures sent.Some? && response.Failed? ==> error == NullOr(response.message, "Product creation failed")
      ensures !(sent.Some? && response.Failed?) ==> error == old(error)
      ensures sent.Some? ==> !submitting
      ensures sent.None? ==> submitting == old(submitting)
    {
      navigateTo := None;
      sent := PressSubmit(v);
      if sent.Some? {
        navigateTo := FinishSubmit(response);
      }
    }
  }

  /** A failed submission always shows a non-empty message. */
  lemma FailureIsShown(m: Option<string>)
    ensures NullOr(m, "Product creation failed") != ""
  {
  }
}
