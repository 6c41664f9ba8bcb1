/** The session-cookie options and the payload-to-FormData conversion (src/utils/misc.ts). */
module Misc {
  import opened JsStrings

  /** Options the session cookie is written with; `secure` comes from the environment, here a parameter. */
  datatype CookieOptions = CookieOptions(path: string, maxAge: nat, sameSite: string, secure: bool)

  const SECONDS_PER_DAY: nat := 24 * 60 * 60

  function CookieOptionsFor(production: bool): (o: CookieOptions)
    ensures o.path == "/" && o.sameSite == "strict"
    ensures o.maxAge % SECONDS_PER_DAY == 0 && o.maxAge / SECONDS_PER_DAY == 3
    ensures o.secure <==> production
  {
    CookieOptions("/", 3 * 24 * 60 * 60, "strict", production)
  }

  /** A browser `File`: its name, MIME type and size in bytes. */
  datatype FileRef = FileRef(name: string, mimeType: string, size: nat)

  /**
   * A JavaScript value held by a payload property. Numbers are integers;
   * every other object (array, date, plain object) carries the text that
   * `String()` gives it.
   */
  datatype JsValue =
    | Undefined
    | Null
    | Bool(b: bool)
    | Number(n: int)
    | Str(s: string)
    | File(file: FileRef)
    | OtherObject(text: string)

  /** One property visited by `for … in`: its key, its value, and whether it is the payload's own property. */
  datatype Property = Property(key: string, value: JsValue, own: bool)

  datatype FormValue = FileValue(file: FileRef) | TextValue(text: string)

  /** One `formData.append(name, value)` call. */
  datatype FormEntry = FormEntry(name: string, value: FormValue)

  /** `String(value)` for the values that are appended as text. */
  function JsString(v: JsValue): string {
    match v
    case Undefined => "undefined"
    case Null => "null"
    case Bool(b) => if b then "true" else "false"
    case Number(n) => IntToString(n)
    case Str(s) => s
    case File(f) => "[object File]"
    case OtherObject(text) => text
  }

  /** The values the conversion skips: null, undefined and the empty string. */
  predicate Skipped(v: JsValue) {
    v.Null? || v.Undefined? || v == Str("")
  }

  /** A property is appended when it is the payload's own and its value is not skipped. */
  predicate Retained(p: Property) {
    p.own && !Skipped(p.value)
  }

  /** The entry appended for a retained property: files unchanged, everything else as text. */
  function EntryFor(p: Property): (e: FormEntry)
    ensures e.name == p.key
    ensures p.value.File? ==> e.value == FileValue(p.value.file)
    ensures !p.value.File? ==> e.value == TextValue(JsString(p.value))
  {
    if p.value.File? then FormEntry(p.key, FileValue(p.value.file))
    else FormEntry(p.key, TextValue(JsString(p.value)))
  }

  /** The FormData contents for properties visited in this order: the specification of the loop. */
  function FormEntries(props: seq<Property>): seq<FormEntry>
    decreases |props|
  {
    if props == [] then []
    else
      var last := props[|props| - 1];
      FormEntries(props[..|props| - 1]) + (if Retained(last) then [EntryFor(last)] else [])
  }

  /** `convertToFormData`: walks the properties in order and appends each retained one once. */
  method ConvertToFormData(props: seq<Property>) returns (formData: seq<FormEntry>)
    ensures formData == FormEntries(props)
  {
    formData := [];
    for i := 0 to |props|
      invariant formData == FormEntries(props[..i])
    {
      assert props[..i + 1][..i] == props[..i];
      var p := props[i];
      if !p.own {
        continue;
      }
      if p.value.Null? || p.value.Undefined? || p.value == Str("") {
        continue;
      }
      if p.value.File? {
        formData := formData + [FormEntry(p.key, FileValue(p.value.file))];
      } else {
        formData := formData + [FormEntry(p.key, TextValue(JsString(p.value)))];
      }
    }
    assert props[..|props|] == props;
  }

  /** The conversion distributes over concatenation, so entries keep the visiting order. */
  lemma {:induction false} FormEntriesAppend(a: seq<Property>, b: seq<Property>)
    ensures FormEntries(a + b) == FormEntries(a) + FormEntries(b)
    decreases |b|
  {
    if b == [] {
      assert a + b == a;
    } else {
      var b' := b[..|b| - 1];
      assert (a + b)[..|a + b| - 1] == a + b';
      FormEntriesAppend(a, b');
    }
  }

  /** An entry is produced exactly when some retained property produces it. */
  lemma {:induction false} FormEntriesMembership(props: seq<Property>, e: FormEntry)
    ensures e in FormEntries(props) <==> exists i :: 0 <= i < |props| && Retained(props[i]) && EntryFor(props[i]) == e
    decreases |props|
  {
    if props != [] {
      var init := props[..|props| - 1];
      FormEntriesMembership(init, e);
      assert forall i :: 0 <= i < |init| ==> init[i] == props[i];
    }
  }

  /** The number of the payload's own properties among those visited. */
  function OwnCount(props: seq<Property>): nat
    decreases |props|
  {
    if props == [] then 0
    else OwnCount(props[..|props| - 1]) + (if props[|props| - 1].own then 1 else 0)
  }

  /** At most one entry per own property, hence at most one per visited property. */
  lemma {:induction false} FormEntriesBound(props: seq<Property>)
    ensures |FormEntries(props)| <= OwnCount(props) <= |props|
    decreases |props|
  {
    if props != [] {
      FormEntriesBound(props[..|props| - 1]);
    }
  }

  /** Zero and false are not skipped: an own property holding either is appended as "0" or "false". */
  lemma FalsyButKept(props: seq<Property>, i: nat)
    requires i < |props| && props[i].own
    requires props[i].value == Number(0) || props[i].value == Bool(false)
    ensures FormEntry(props[i].key, TextValue(if props[i].value == Number(0) then "0" else "false")) in FormEntries(props)
  {
    FormEntriesMembership(props, EntryFor(props[i]));
  }

  /** Null, undefined, "" and inherited properties never produce an entry under their key unless another property does. */
  lemma SkippedNeverAppended(props: seq<Property>, name: string)
    requires forall i :: 0 <= i < |props| && props[i].key == name ==> !Retained(props[i])
    ensures forall e :: e in FormEntries(props) ==> e.name != name
  {
    forall e | e in FormEntries(props)
      ensures e.name != name
    {
      FormEntriesMembership(props, e);
    }
  }
}
