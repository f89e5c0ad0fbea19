/** `createFileUploadFormData` of src/utils.ts: the multipart form an upload
    sends, as the ordered list of its (name, value) fields. */
module FormUpload {
  import opened JsValues

  const DefaultFileFieldName: string := "file"

  datatype FieldValue = FilePart(bytes: Bytes) | TextPart(text: string)

  datatype Field = Field(name: string, value: FieldValue)

  /** An option entry produces no field when its value is undefined or null. */
  predicate Present(v: Value)
  {
    !v.Undefined? && !v.Null?
  }

  /** The text a present option value is sent as: arrays and other objects
      as their JSON text, everything else through `String(value)`. */
  function FieldText(b: Builtins, v: Value): (t: string)
    requires Present(v)
    ensures TypeofObject(v) ==> t == JsonText(b, v)
    ensures !TypeofObject(v) ==> t == b.toText(v)
  {
    if TypeofObject(v) then JsonText(b, v)
    else b.toText(v)
  }

  /** The fields the option entries produce, in entry order. */
  function OptionFields(b: Builtins, entries: seq<(string, Value)>): seq<Field>
  {
    if entries == [] then []
    else
      var last := entries[|entries| - 1];
      OptionFields(b, entries[..|entries| - 1])
        + (if Present(last.1) then [Field(last.0, TextPart(FieldText(b, last.1)))] else [])
  }

  /** The number of entries that produce a field. */
  function PresentCount(entries: seq<(string, Value)>): nat
  {
    if entries == [] then 0
    else (if Present(entries[0].1) then 1 else 0) + PresentCount(entries[1..])
  }

  /** The entries that produce a field, in order. */
  function PresentEntries(entries: seq<(string, Value)>): seq<(string, Value)>
  {
    if entries == [] then []
    else (if Present(entries[0].1) then [entries[0]] else []) + PresentEntries(entries[1..])
  }

  /** The bytes the file field carries: a Buffer is wrapped in a Blob of the
      same bytes, a Blob is appended as it is. */
  function FileBytes(file: Value): Bytes
    requires file.Blob? || file.NodeBuffer?
  {
    file.bytes
  }

  /** Builds the form: the file field first, then one field per present option. */
  method CreateFileUploadFormData(b: Builtins, file: Value, options: Option<seq<(string, Value)>>,
                                  fileFieldName: Option<string>)
    returns (form: seq<Field>)
    requires file.Blob? || file.NodeBuffer?
    ensures |form| >= 1
    ensures form[0] == Field(if fileFieldName.Some? then fileFieldName.value else DefaultFileFieldName, FilePart(file.bytes))
    ensures options.Some? ==> form[1..] == OptionFields(b, options.value)
    ensures |form| == 1 + (if options.Some? then PresentCount(options.value) else 0)
  {
    var fileToAppend := FilePart(FileBytes(file));
    var name := if fileFieldName.Some? then fileFieldName.value else DefaultFileFieldName;
    form := [Field(name, fileToAppend)];
    if options.Some? {
      var entries := options.value;
      for i := 0 to |entries|
        invariant |form| >= 1 && form[0] == Field(name, fileToAppend)
        invariant form[1..] == OptionFields(b, entries[..i])
      {
        assert entries[..i + 1][..i] == entries[..i];
        var (key, value) := entries[i];
        if value.Undefined? || value.Null? {
          continue;
        }
        form := form + [Field(key, TextPart(FieldText(b, value)))];
      }
      assert entries[..|entries|] == entries;
      FieldCount(b, entries);
    }
  }

  /** The option fields are exactly the present entries, each encoded, in order. */
  lemma {:induction false} OptionFieldsArePresentEntries(b: Builtins, entries: seq<(string, Value)>)
    ensures var present := PresentEntries(entries);
            && |OptionFields(b, entries)| == |present| == PresentCount(entries)
            && forall i :: 0 <= i < |present| ==>
                 Present(present[i].1)
                 && OptionFields(b, entries)[i] == Field(present[i].0, TextPart(FieldText(b, present[i].1)))
  {
    if entries != [] {
      var init := entries[..|entries| - 1];
      var last := entries[|entries| - 1];
      OptionFieldsArePresentEntries(b, init);
      PresentEntriesSnoc(init, last);
      assert init + [last] == entries;
    }
  }

  /** Filtering a list extended at the back extends the filtered list at the back. */
  lemma {:induction false} PresentEntriesSnoc(init: seq<(string, Value)>, last: (string, Value))
    ensures PresentEntries(init + [last]) == PresentEntries(init) + (if Present(last.1) then [last] else [])
    ensures PresentCount(init + [last]) == PresentCount(init) + (if Present(last.1) then 1 else 0)
    ensures PresentCount(init) == |PresentEntries(init)|
    decreases |init|
  {
    if init == [] {
      assert [last][1..] == [];
    } else {
      assert (init + [last])[1..] == init[1..] + [last];
      PresentEntriesSnoc(init[1..], last);
    }
  }

  /** A form with present options has one field per present option after the file. */
  lemma FieldCount(b: Builtins, entries: seq<(string, Value)>)
    ensures |OptionFields(b, entries)| == PresentCount(entries)
    ensures PresentCount(entries) <= |entries|
  {
    OptionFieldsArePresentEntries(b, entries);
    PresentCountBound(entries);
  }

  lemma {:induction false} PresentCountBound(entries: seq<(string, Value)>)
    ensures PresentCount(entries) <= |entries|
  {
    if entries != [] {
      PresentCountBound(entries[1..]);
    }
  }

  /** Every option field names an option entry whose value is present. */
  lemma {:induction false} OptionFieldsComeFromPresentEntries(b: Builtins, entries: seq<(string, Value)>, j: int)
    requires 0 <= j < |OptionFields(b, entries)|
    ensures exists i :: 0 <= i < |entries| && entries[i].0 == OptionFields(b, entries)[j].name && Present(entries[i].1)
  {
    var init := entries[..|entries| - 1];
    var last := entries[|entries| - 1];
    if j < |OptionFields(b, init)| {
      OptionFieldsComeFromPresentEntries(b, init, j);
      var i :| 0 <= i < |init| && init[i].0 == OptionFields(b, init)[j].name && Present(init[i].1);
      assert entries[i] == init[i];
    } else {
      assert entries[|entries| - 1] == last;
    }
  }
}
