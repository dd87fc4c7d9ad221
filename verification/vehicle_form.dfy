/**
  The new-vehicle form of the admin panel: its defaults, the coercion of the
  numeric inputs, and the feature and image list editors, which only ever
  hold distinct, trimmed, non-blank entries.
 */
module VehicleForm {
  import opened Common
  import opened Seqs
  import opened Text

  // ---------------------------------------------------------------------------
  // The list editors

  /** A list editor: the entries so far and the text in its input box. */
  datatype ListEditor = ListEditor(entries: seq<string>, draft: string)

  /** Distinct entries, each trimmed and non-empty. */
  predicate WellFormedList(xs: seq<string>)
  {
    NoDuplicates(xs) && forall i :: 0 <= i < |xs| ==> xs[i] != "" && IsTrimmed(xs[i])
  }

  /** The draft would be added: it is not blank and not already an entry once trimmed. */
  predicate Accepts(ed: ListEditor)
  {
    !IsBlank(ed.draft) && Trim(ed.draft) !in ed.entries
  }

  /** `addFeature` / `addImage`: append the trimmed draft and clear the box, or change nothing. */
  function AddEntry(ed: ListEditor): (r: ListEditor)
    ensures Accepts(ed) ==> r == ListEditor(ed.entries + [Trim(ed.draft)], "")
    ensures !Accepts(ed) ==> r == ed
  {
    if !IsBlank(ed.draft) && Trim(ed.draft) !in ed.entries then
      ListEditor(ed.entries + [Trim(ed.draft)], "")
    else ed
  }

  /** `removeFeature` / `removeImage`: drop the entries equal to `x`. */
  function RemoveEntry(xs: seq<string>, x: string): (r: seq<string>)
    ensures x !in r
    ensures IsSubsequence(r, xs)
    ensures forall i :: 0 <= i < |xs| && xs[i] != x ==> xs[i] in r
    ensures forall y :: multiset(r)[y] == if y != x then multiset(xs)[y] else 0
  {
    FilterIsSubsequence(xs, (f: string) => f != x);
    FilterMultiplicity(xs, (f: string) => f != x);
    Filter(xs, (f: string) => f != x)
  }

  /** Adding keeps the list well formed. */
  lemma AddEntryKeepsWellFormed(ed: ListEditor)
    requires WellFormedList(ed.entries)
    ensures WellFormedList(AddEntry(ed).entries)
  {
    if Accepts(ed) {
      var xs := ed.entries + [Trim(ed.draft)];
      forall i, j | 0 <= i < j < |xs|
        ensures xs[i] != xs[j]
      {
        if j == |xs| - 1 {
          assert xs[i] in ed.entries;
        }
      }
    }
  }

  /** Removing keeps the list well formed. */
  lemma RemoveEntryKeepsWellFormed(xs: seq<string>, x: string)
    requires WellFormedList(xs)
    ensures WellFormedList(RemoveEntry(xs, x))
  {
    FilterNoDuplicates(xs, (f: string) => f != x);
    var r := RemoveEntry(xs, x);
    forall i | 0 <= i < |r|
      ensures r[i] != "" && IsTrimmed(r[i])
    {
      assert r[i] in xs;
    }
  }

  /** Removing a value that is not an entry changes nothing. */
  lemma RemoveAbsentEntry(xs: seq<string>, x: string)
    requires x !in xs
    ensures RemoveEntry(xs, x) == xs
  {
    FilterAll(xs, (f: string) => f != x);
  }

  /** Adding a fresh value and then removing its trimmed form restores the list. */
  lemma AddThenRemoveRestores(ed: ListEditor)
    requires Accepts(ed)
    ensures RemoveEntry(AddEntry(ed).entries, Trim(ed.draft)) == ed.entries
  {
    var t := Trim(ed.draft);
    FilterAppend(ed.entries, [t], (f: string) => f != t);
    FilterAll(ed.entries, (f: string) => f != t);
    assert Filter([t], (f: string) => f != t) == [];
  }

  /** A draft that trims to an existing entry is refused, and the box keeps its text. */
  lemma DuplicateDraftRefused(ed: ListEditor)
    requires Trim(ed.draft) in ed.entries
    ensures AddEntry(ed) == ed
  {
  }

  /** Surrounding whitespace does not make a second copy of an entry. */
  lemma PaddedDuplicateRefused(xs: seq<string>, x: string)
    requires x in xs && IsTrimmed(x)
    ensures AddEntry(ListEditor(xs, " " + x + " ")).entries == xs
  {
    PaddedTrim(x);
  }

  /** Trimming `x` with one space on each side gives `x` back, for a trimmed `x`. */
  lemma PaddedTrim(x: string)
    requires IsTrimmed(x)
    ensures Trim(" " + x + " ") == x
  {
    var d := " " + x + " ";
    assert d[1..] == x + " ";
    assert TrimStart(d) == TrimStart(x + " ");
    if |x| == 0 {
      assert x + " " == " ";
    } else {
      assert TrimStart(x + " ") == x + " ";
      assert (x + " ")[..|x|] == x;
    }
  }

  // ---------------------------------------------------------------------------
  // The form

  /** What `Number(value)` gives: an integer or `NaN`. */
  datatype NumberValue = Num(n: int) | NaN

  predicate IsDigit(c: char)
  {
    '0' <= c <= '9'
  }

  predicate AllDigits(s: string)
  {
    forall i :: 0 <= i < |s| ==> IsDigit(s[i])
  }

  /** The value of a run of decimal digits. */
  function DigitsValue(s: string): (n: nat)
    requires AllDigits(s)
    decreases |s|
  {
    if |s| == 0 then 0
    else DigitsValue(s[..|s| - 1]) * 10 + ((s[|s| - 1] as int) - 48)
  }

  /**
    `Number(s)` on integer text: surrounding whitespace is ignored, the empty
    text is 0, an optional sign precedes the digits, anything else is `NaN`.
   */
  function ToNumber(s: string): (r: NumberValue)
  {
    var t := Trim(s);
    if t == "" then Num(0)
    else if (t[0] == '-' || t[0] == '+') && |t| > 1 && AllDigits(t[1..]) then
      var v: int := DigitsValue(t[1..]);
      Num(if t[0] == '-' then -v else v)
    else if AllDigits(t) then Num(DigitsValue(t))
    else NaN
  }

  /** The decimal digits of `n`. */
  function NatString(n: nat): (s: string)
    ensures |s| > 0 && AllDigits(s)
    ensures DigitsValue(s) == n
  {
    if n < 10 then
      assert DigitsValue([(48 + n) as char][..0]) == 0;
      [(48 + n) as char]
    else
      var p := NatString(n / 10);
      var s := p + [(48 + n % 10) as char];
      assert s[..|s| - 1] == p;
      s
  }

  /** `Number` reads the decimal text of a natural number back as that number. */
  lemma ToNumberOfNatString(n: nat)
    ensures ToNumber(NatString(n)) == Num(n)
  {
    var s := NatString(n);
    assert IsTrimmed(s) by {
      assert IsDigit(s[0]) && IsDigit(s[|s| - 1]);
    }
    TrimOfTrimmed(s);
  }

  /** Blank input counts as 0, and letters give `NaN`. */
  lemma ToNumberExamples()
    ensures ToNumber("") == Num(0)
    ensures ToNumber("abc") == NaN
  {
    assert IsTrimmed("abc");
    TrimOfTrimmed("abc");
    assert !IsDigit("abc"[0]);
  }

  datatype FormData = FormData(
    vehicleType: string,
    brand: string,
    model: string,
    year: NumberValue,
    licensePlate: string,
    color: string,
    description: string,
    pricePerDay: NumberValue,
    location: string,
    features: seq<string>,
    images: seq<string>)

  /** The form as first shown, in year `currentYear`. */
  function DefaultForm(currentYear: int): (f: FormData)
    ensures f.vehicleType == "CAR" && f.pricePerDay == Num(0) && f.year == Num(currentYear)
    ensures f.features == [] && f.images == []
    ensures f.brand == "" && f.model == "" && f.licensePlate == "" && f.location == ""
    ensures f.color == "" && f.description == ""
  {
    FormData("CAR", "", "", Num(currentYear), "", "", "", Num(0), "", [], [])
  }

  /** The names of the form's inputs. */
  const FieldNames: set<string> :=
    {"type", "brand", "model", "year", "licensePlate", "color", "description", "pricePerDay", "location"}

  /** `handleInputChange`: `year` and `pricePerDay` are coerced to numbers, other inputs kept as typed. */
  function InputChange(f: FormData, name: string, value: string): (r: FormData)
    ensures name == "year" ==> r == f.(year := ToNumber(value))
    ensures name == "pricePerDay" ==> r == f.(pricePerDay := ToNumber(value))
    ensures name == "type" ==> r == f.(vehicleType := value)
    ensures name == "brand" ==> r == f.(brand := value)
    ensures name == "model" ==> r == f.(model := value)
    ensures name == "licensePlate" ==> r == f.(licensePlate := value)
    ensures name == "color" ==> r == f.(color := value)
    ensures name == "description" ==> r == f.(description := value)
    ensures name == "location" ==> r == f.(location := value)
    ensures name !in FieldNames ==> r == f
    ensures r.features == f.features && r.images == f.images
  {
    match name
    case "type" => f.(vehicleType := value)
    case "brand" => f.(brand := value)
    case "model" => f.(model := value)
    case "year" => f.(year := ToNumber(value))
    case "licensePlate" => f.(licensePlate := value)
    case "color" => f.(color := value)
    case "description" => f.(description := value)
    case "pricePerDay" => f.(pricePerDay := ToNumber(value))
    case "location" => f.(location := value)
    case _ => f
  }

  /** A text input never touches the numeric fields. */
  lemma TextInputKeepsNumbers(f: FormData, name: string, value: string)
    requires name != "year" && name != "pricePerDay"
    ensures InputChange(f, name, value).year == f.year
    ensures InputChange(f, name, value).pricePerDay == f.pricePerDay
  {
  }

  /** `addFeature`: the feature editor's add; the images are untouched. Returns the form and the new input text. */
  function AddFeature(f: FormData, draft: string): (r: (FormData, string))
    ensures (r.0.features, r.1) == (AddEntry(ListEditor(f.features, draft)).entries, AddEntry(ListEditor(f.features, draft)).draft)
    ensures r.0 == f.(features := r.0.features)
  {
    var ed := AddEntry(ListEditor(f.features, draft));
    (f.(features := ed.entries), ed.draft)
  }

  /** `removeFeature`. */
  function RemoveFeature(f: FormData, x: string): (r: FormData)
    ensures r == f.(features := RemoveEntry(f.features, x))
  {
    f.(features := RemoveEntry(f.features, x))
  }

  /** `addImage`: the image editor's add; the features are untouched. */
  function AddImage(f: FormData, draft: string): (r: (FormData, string))
    ensures (r.0.images, r.1) == (AddEntry(ListEditor(f.images, draft)).entries, AddEntry(ListEditor(f.images, draft)).draft)
    ensures r.0 == f.(images := r.0.images)
  {
    var ed := AddEntry(ListEditor(f.images, draft));
    (f.(images := ed.entries), ed.draft)
  }

  /** `removeImage`. */
  function RemoveImage(f: FormData, x: string): (r: FormData)
    ensures r == f.(images := RemoveEntry(f.images, x))
  {
    f.(images := RemoveEntry(f.images, x))
  }

  /** Both lists of the form are well formed. */
  predicate WellFormedForm(f: FormData)
  {
    WellFormedList(f.features) && WellFormedList(f.images)
  }

  /** The default form is well formed and every list edit keeps it so. */
  lemma ListEditsKeepFormWellFormed(f: FormData, draft: string, x: string, currentYear: int)
    requires WellFormedForm(f)
    ensures WellFormedForm(DefaultForm(currentYear))
    ensures WellFormedForm(AddFeature(f, draft).0) && WellFormedForm(AddImage(f, draft).0)
    ensures WellFormedForm(RemoveFeature(f, x)) && WellFormedForm(RemoveImage(f, x))
  {
    AddEntryKeepsWellFormed(ListEditor(f.features, draft));
    AddEntryKeepsWellFormed(ListEditor(f.images, draft));
    RemoveEntryKeepsWellFormed(f.features, x);
    RemoveEntryKeepsWellFormed(f.images, x);
  }
}
