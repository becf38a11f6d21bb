/**
 * The record adapter `record_to_dict`: turn a raw record and a mapping from
 * human-readable field names to field identifiers into a record keyed by
 * field name, with every value stripped of surrounding whitespace.
 */
module Debug {
  import opened Wrappers
  import opened Strings

  /** A raw record: field identifier to value (values are already text). */
  type Record = map<string, string>
  /** Human-readable field name to field identifier. */
  type FieldMapping = map<string, string>

  /**
   * The shapes `record_to_dict` can be handed. For a dict, `None` means the key
   * is absent; for an object, `None` means it has no such attribute.
   */
  datatype Input =
    | DictInput(record: Option<Record>, fieldMapping: Option<FieldMapping>)
    | ObjInput(record: Option<Record>, fieldMapping: Option<FieldMapping>)
    | Other

  datatype Error = ValueError(message: string)

  const UnsupportedInput := "Unsupported input data structure"

  /** The shapes the dispatch accepts: any dict, or an object with both attributes. */
  predicate Supported(data: Input) {
    data.DictInput? || (data.ObjInput? && data.record.Some? && data.fieldMapping.Some?)
  }

  /** The shape dispatch: the record and mapping to work on, `{}` for a missing dict key. */
  function Unpack(data: Input): (r: Result<(Record, FieldMapping), Error>)
    ensures r.Failure? <==> !Supported(data)
    ensures r.Failure? ==> r.error == ValueError(UnsupportedInput)
    ensures r.Success? && data.DictInput? ==>
      r.value == (data.record.GetOr(map[]), data.fieldMapping.GetOr(map[]))
    ensures r.Success? && data.ObjInput? ==>
      r.value == (data.record.value, data.fieldMapping.value)
  {
    match data
    case DictInput(rec, fm) => Success((rec.GetOr(map[]), fm.GetOr(map[])))
    case ObjInput(Some(rec), Some(fm)) => Success((rec, fm))
    case _ => Failure(ValueError(UnsupportedInput))
  }

  /** The value stored for one field: the stripped record entry, or `''` when it is missing. */
  function FieldValue(records: Record, identifier: string): (v: string)
    ensures Trimmed(v)
    ensures identifier !in records ==> v == ""
  {
    if identifier in records then Strip(records[identifier]) else ""
  }

  /** The record keyed by field name that the loop of `record_to_dict` builds. */
  function Normalized(records: Record, fieldMapping: FieldMapping): (r: map<string, string>)
    ensures r.Keys == fieldMapping.Keys
    ensures forall name :: name in r ==> Trimmed(r[name])
  {
    map name | name in fieldMapping :: FieldValue(records, fieldMapping[name])
  }

  /** What `record_to_dict` returns or raises for `data`. */
  function Adapted(data: Input): (r: Result<map<string, string>, Error>)
    ensures r.Failure? <==> !Supported(data)
  {
    match Unpack(data)
    case Success((records, fieldMapping)) => Success(Normalized(records, fieldMapping))
    case Failure(e) => Failure(e)
  }

  /** `record_to_dict`: dispatch on the shape, then fill a fresh map one field at a time. */
  method RecordToDict(data: Input) returns (r: Result<map<string, string>, Error>)
    ensures r == Adapted(data)
  {
    var records: Record;
    var fieldMapping: FieldMapping;
    if data.DictInput? {
      records := data.record.GetOr(map[]);
      fieldMapping := data.fieldMapping.GetOr(map[]);
    } else if data.ObjInput? && data.record.Some? && data.fieldMapping.Some? {
      records := data.record.value;
      fieldMapping := data.fieldMapping.value;
    } else {
      return Failure(ValueError(UnsupportedInput));
    }

    var result: map<string, string> := map[];
    var pending := fieldMapping.Keys;
    while pending != {}
      invariant pending <= fieldMapping.Keys
      invariant result.Keys == fieldMapping.Keys - pending
      invariant forall name :: name in result ==> result[name] == FieldValue(records, fieldMapping[name])
      decreases pending
    {
      var name :| name in pending;
      var identifier := fieldMapping[name];
      if identifier in records {
        result := result[name := Strip(records[identifier])];
      } else {
        result := result[name := ""];
      }
      pending := pending - {name};
    }
    assert Unpack(data) == Success((records, fieldMapping));
    assert result == Normalized(records, fieldMapping);
    r := Success(result);
  }

  /** Any input that is neither a dict nor an object with both attributes raises `ValueError`. */
  lemma RejectsUnsupported(data: Input)
    ensures Adapted(data).Failure? <==> !Supported(data)
    ensures Adapted(data).Failure? ==> Adapted(data).error == ValueError(UnsupportedInput)
  {
  }

  /** The call at the end of the script passes a list, which is rejected. */
  lemma ListInputRejected()
    ensures Adapted(Other) == Failure(ValueError(UnsupportedInput))
  {
  }

  /** The result has exactly the field names of the mapping as keys. */
  lemma NormalizedKeys(records: Record, fieldMapping: FieldMapping)
    ensures Normalized(records, fieldMapping).Keys == fieldMapping.Keys
  {
  }

  /** A field whose identifier is in the record gets that entry, stripped. */
  lemma NormalizedPresent(records: Record, fieldMapping: FieldMapping, name: string)
    requires name in fieldMapping && fieldMapping[name] in records
    ensures Normalized(records, fieldMapping)[name] == Strip(records[fieldMapping[name]])
  {
  }

  /** A field whose identifier is absent from the record gets `''`. */
  lemma NormalizedAbsent(records: Record, fieldMapping: FieldMapping, name: string)
    requires name in fieldMapping && fieldMapping[name] !in records
    ensures Normalized(records, fieldMapping)[name] == ""
  {
  }

  /** No value carries surrounding whitespace, and stripping it again changes nothing. */
  lemma NormalizedTrimmed(records: Record, fieldMapping: FieldMapping)
    ensures forall name :: name in Normalized(records, fieldMapping) ==>
      var v := Normalized(records, fieldMapping)[name]; Trimmed(v) && Strip(v) == v
  {
    forall name | name in Normalized(records, fieldMapping)
      ensures var v := Normalized(records, fieldMapping)[name]; Trimmed(v) && Strip(v) == v
    {
      StripTrimmed(Normalized(records, fieldMapping)[name]);
    }
  }

  /** Two field names mapped to the same identifier receive the same value. */
  lemma NormalizedSameIdentifier(records: Record, fieldMapping: FieldMapping, a: string, b: string)
    requires a in fieldMapping && b in fieldMapping && fieldMapping[a] == fieldMapping[b]
    ensures Normalized(records, fieldMapping)[a] == Normalized(records, fieldMapping)[b]
  {
  }

  /** Record entries that no mapped identifier names do not affect the result. */
  lemma NormalizedIgnoresUnmapped(records: Record, fieldMapping: FieldMapping)
    ensures Normalized(records, fieldMapping)
         == Normalized(map id | id in records && id in fieldMapping.Values :: records[id], fieldMapping)
  {
    var kept := map id | id in records && id in fieldMapping.Values :: records[id];
    forall name | name in fieldMapping
      ensures FieldValue(records, fieldMapping[name]) == FieldValue(kept, fieldMapping[name])
    {
      assert fieldMapping[name] in fieldMapping.Values;
    }
  }

  /** A dict or a complete object yields the normalized record of its two parts. */
  lemma AdaptedSupported(data: Input)
    requires Supported(data)
    ensures Adapted(data) == Success(Normalized(
      if data.DictInput? then data.record.GetOr(map[]) else data.record.value,
      if data.DictInput? then data.fieldMapping.GetOr(map[]) else data.fieldMapping.value))
  {
  }

  /** A dict without `field_mapping` yields the empty map. */
  lemma DictWithoutMapping(record: Option<Record>)
    ensures Adapted(DictInput(record, None)) == Success(map[])
  {
  }

  /** A dict without `record` maps every field name to `''`. */
  lemma DictWithoutRecord(fieldMapping: FieldMapping)
    ensures Adapted(DictInput(None, Some(fieldMapping))) == Success(map name | name in fieldMapping :: "")
  {
    assert Normalized(map[], fieldMapping) == map name | name in fieldMapping :: "";
  }
}
