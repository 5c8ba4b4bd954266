/**
 * The reader's data file (data/src/store/total_data.rs): a list of site configurations
 * and a list of read records.
 *
 * The helpers whose definitions are not part of this model (`serde_json::from_slice`,
 * `JsValue::into_serde`, `ReadRecord::match_url`, `ReadRecord::update`, the `PartialEq`
 * of `ReadRecord` and `TotalConfig::get_default`) are parameters of the operations
 * that use them.
 */
module TotalDataStore {
  import opened Wrappers

  newtype byte = b: int | 0 <= b < 256

  /** A site configuration; its fields other than the site url are not part of this model. */
  datatype TotalConfig = TotalConfig(mainPageUrl: string, settings: map<string, string>)

  /** A read record; its fields other than the two keys are not part of this model. */
  datatype ReadRecord = ReadRecord(novelId: string, mainPageUrl: string, progress: map<string, string>)

  /** The value of a `TotalData` struct. */
  datatype Data = Data(totalConfig: seq<TotalConfig>, readRecord: seq<ReadRecord>)

  /** The methods of `ReadRecord` that `add_read_record` relies on. */
  datatype RecordImpl = RecordImpl(
    matchUrl: (ReadRecord, string) -> bool,
    same: (ReadRecord, ReadRecord) -> bool,
    update: (ReadRecord, ReadRecord) -> ReadRecord)

  /** The position of the first element satisfying `p`: the search behind `iter().any` and `iter_mut().find`. */
  function FindFirst<T>(s: seq<T>, p: T -> bool): (r: Option<nat>)
    ensures r.Some? ==> r.value < |s| && p(s[r.value])
    ensures r.Some? ==> forall j :: 0 <= j < r.value ==> !p(s[j])
    ensures r.None? ==> forall j :: 0 <= j < |s| ==> !p(s[j])
  {
    if |s| == 0 then None
    else if p(s[0]) then Some(0)
    else match FindFirst(s[1..], p)
      case None => None
      case Some(i) => Some(i + 1)
  }

  /** `load`: the parsed data, or one default configuration and no records if parsing fails. */
  function Load(fromSlice: seq<byte> -> Option<Data>, defaultConfig: TotalConfig, buf: seq<byte>): (r: Data)
    ensures fromSlice(buf).Some? ==> r == fromSlice(buf).value
    ensures fromSlice(buf).None? ==> r.totalConfig == [defaultConfig] && r.readRecord == []
  {
    match fromSlice(buf)
    case Some(value) => value
    case None => Data([defaultConfig], [])
  }

  /** Some configuration's site url is one that `rec` belongs to. */
  function ConfigMatches(configs: seq<TotalConfig>, rec: ReadRecord, matchUrl: (ReadRecord, string) -> bool): (b: bool)
    ensures b <==> exists k :: 0 <= k < |configs| && matchUrl(rec, configs[k].mainPageUrl)
  {
    FindFirst(configs, (c: TotalConfig) => matchUrl(rec, c.mainPageUrl)).Some?
  }

  /** `i` is the first position holding a record equal to `rec`. */
  ghost predicate IsFirstEqual(records: seq<ReadRecord>, rec: ReadRecord, same: (ReadRecord, ReadRecord) -> bool, i: nat) {
    i < |records| && same(records[i], rec) && forall j :: 0 <= j < i ==> !same(records[j], rec)
  }

  /** The records after a matched `add_read_record`: the first equal record updated, or `rec` appended. */
  function Upserted(records: seq<ReadRecord>, rec: ReadRecord, ops: RecordImpl): (r: seq<ReadRecord>)
    ensures (forall k :: 0 <= k < |records| ==> !ops.same(records[k], rec)) ==>
              |r| == |records| + 1 && records <= r && r[|records|] == rec
    ensures forall i: nat :: IsFirstEqual(records, rec, ops.same, i) ==>
              |r| == |records| && r[i] == ops.update(records[i], rec) &&
              forall k :: 0 <= k < |records| && k != i ==> r[k] == records[k]
  {
    match FindFirst(records, (item: ReadRecord) => ops.same(item, rec))
    case None => records + [rec]
    case Some(i) => records[i := ops.update(records[i], rec)]
  }

  /** Adding a record that is equal to itself a second time updates it instead of appending it again. */
  lemma ReAddUpdates(records: seq<ReadRecord>, rec: ReadRecord, ops: RecordImpl)
    requires ops.same(rec, rec)
    requires forall k :: 0 <= k < |records| ==> !ops.same(records[k], rec)
    ensures Upserted(Upserted(records, rec, ops), rec, ops) == records + [ops.update(rec, rec)]
  {
  }

  /** `TotalData`, the object handed to JavaScript. */
  class TotalData {
    var totalConfig: seq<TotalConfig>
    var readRecord: seq<ReadRecord>

    /** The object wrapping a `TotalData` value, such as the one `load` returns. */
    constructor (value: Data)
      ensures totalConfig == value.totalConfig && readRecord == value.readRecord
    {
      totalConfig := value.totalConfig;
      readRecord := value.readRecord;
    }

    method UpdateData(fromSlice: seq<byte> -> Option<Data>, defaultConfig: TotalConfig, buf: seq<byte>)
      modifies this
      ensures readRecord == Load(fromSlice, defaultConfig, buf).readRecord
      ensures totalConfig == Load(fromSlice, defaultConfig, buf).totalConfig
    {
      var newData := Load(fromSlice, defaultConfig, buf);
      readRecord := newData.readRecord;
      totalConfig := newData.totalConfig;
    }

    /**
     * Adds `value` once it deserialises to a record of a configured site: the first equal
     * record is updated in place, or the record is appended. Reports whether it was added.
     */
    method AddReadRecord<J>(ops: RecordImpl, intoSerde: J -> Option<ReadRecord>, value: J) returns (added: bool)
      modifies this
      ensures totalConfig == old(totalConfig)
      ensures added <==> intoSerde(value).Some? && ConfigMatches(totalConfig, intoSerde(value).value, ops.matchUrl)
      ensures !added ==> readRecord == old(readRecord)
      ensures added ==> readRecord == Upserted(old(readRecord), intoSerde(value).value, ops)
    {
      var parsed := intoSerde(value);
      if parsed.None? {
        return false;
      }
      var newRecord := parsed.value;
      if ConfigMatches(totalConfig, newRecord, ops.matchUrl) {
        match FindFirst(readRecord, (item: ReadRecord) => ops.same(item, newRecord)) {
          case None =>
            readRecord := readRecord + [newRecord];
          case Some(i) =>
            readRecord := readRecord[i := ops.update(readRecord[i], newRecord)];
        }
        added := true;
      } else {
        added := false;
      }
    }

    /** Some record has both the given novel id and the given site url. */
    function CheckExists(novelId: string, mainPageUrl: string): (b: bool)
      reads this
      ensures b <==> exists k :: 0 <= k < |readRecord| &&
                       readRecord[k].mainPageUrl == mainPageUrl && readRecord[k].novelId == novelId
    {
      FindFirst(readRecord, (item: ReadRecord) => item.mainPageUrl == mainPageUrl && item.novelId == novelId).Some?
    }
  }
}
