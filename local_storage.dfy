/**
 * The browser-persisted state cell (`useLocalStorage`) and the session id generator.
 * The browser's `localStorage` is a `Storage` object; JSON is an abstract `Codec`.
 */
module LocalStorage {
  import opened Wrappers
  import opened Strings

  /**
   * `window.localStorage`: string entries, plus whether `getItem` and `setItem`
   * currently succeed (storage disabled, quota exceeded).
   */
  class Storage {
    var entries: map<string, string>
    var readable: bool
    var writable: bool

    constructor (entries: map<string, string>, readable: bool, writable: bool)
      ensures this.entries == entries && this.readable == readable && this.writable == writable
    {
      this.entries := entries;
      this.readable := readable;
      this.writable := writable;
    }

    /** `setItem`: `ok` is false when it throws, and then nothing is written. */
    method SetItem(key: string, text: string) returns (ok: bool)
      modifies this
      ensures ok == old(writable)
      ensures entries == StoredAfter(old(entries), ok, key, text)
      ensures readable == old(readable) && writable == old(writable)
    {
      ok := writable;
      if ok {
        entries := entries[key := text];
      }
    }
  }

  /** The entries after a `setItem` that succeeded or threw. */
  function StoredAfter(entries: map<string, string>, ok: bool, key: string, text: string): (r: map<string, string>)
    ensures ok ==> key in r && r[key] == text
    ensures forall k :: k != key ==> (k in r <==> k in entries) && (k in r ==> r[k] == entries[k])
    ensures !ok ==> r == entries
  {
    if ok then entries[key := text] else entries
  }

  /** `JSON.stringify` and `JSON.parse` for one value type; parsing may throw (`None`). */
  datatype Codec<!T> = Codec(encode: T -> string, decode: string -> Option<T>)

  /** The argument of a state setter: a plain value, or an updater that may throw (`None`). */
  datatype Action<!T> = Value(value: T) | Updater(update: T -> Option<T>)

  /** The value a setter stores when its updater is handed `snapshot`; `None` when the updater throws. */
  function NextValue<T>(snapshot: T, action: Action<T>): (r: Option<T>)
    ensures action.Value? ==> r == Some(action.value)
    ensures action.Updater? ==> r == action.update(snapshot)
  {
    match action
    case Value(v) => Some(v)
    case Updater(f) => f(snapshot)
  }

  /**
   * The value a cell starts with: the decoded stored text, or `initial` when the key is
   * absent, its text is empty, the read throws or the text does not decode.
   */
  function ReadInitial<T>(entries: map<string, string>, readable: bool, key: string, initial: T,
                          decode: string -> Option<T>): (r: T)
    ensures r == initial || (readable && key in entries && entries[key] != "" && decode(entries[key]) == Some(r))
    ensures !readable || key !in entries || entries[key] == "" ==> r == initial
    ensures readable && key in entries && entries[key] != "" && decode(entries[key]).None? ==> r == initial
    ensures readable && key in entries && entries[key] != "" && decode(entries[key]).Some? ==>
      r == decode(entries[key]).value
  {
    if !readable || key !in entries || entries[key] == "" then initial
    else decode(entries[key]).GetOr(initial)
  }

  /** A cell created after a successful write of `v` starts at `v` when the codec round-trips `v`. */
  lemma ReadBackWritten<T>(entries: map<string, string>, key: string, v: T, initial: T, codec: Codec<T>)
    requires codec.decode(codec.encode(v)) == Some(v)
    requires codec.encode(v) != ""
    ensures ReadInitial(StoredAfter(entries, true, key, codec.encode(v)), true, key, initial, codec.decode) == v
  {
  }

  /** Writing one key leaves what a cell on another key reads unchanged. */
  lemma OtherKeyUnaffected<T>(entries: map<string, string>, ok: bool, key: string, text: string,
                              other: string, readable: bool, initial: T, decode: string -> Option<T>)
    requires other != key
    ensures ReadInitial(StoredAfter(entries, ok, key, text), readable, other, initial, decode)
         == ReadInitial(entries, readable, other, initial, decode)
  {
  }

  /**
   * One `useLocalStorage(key, initialValue)`: the value held in memory and the storage
   * it writes through to.
   */
  class Cell<T> {
    const key: string
    const storage: Storage
    const codec: Codec<T>
    var value: T

    /** The lazy initial read; it never writes to storage and never throws. */
    constructor (storage: Storage, key: string, initialValue: T, codec: Codec<T>)
      ensures this.key == key && this.storage == storage && this.codec == codec
      ensures value == ReadInitial(storage.entries, storage.readable, key, initialValue, codec.decode)
      ensures storage.entries == old(storage.entries)
    {
      this.key := key;
      this.storage := storage;
      this.codec := codec;
      value := ReadInitial(storage.entries, storage.readable, key, initialValue, codec.decode);
    }

    /**
     * The setter handed out by the render in which the cell held `snapshot`: an updater
     * is applied to `snapshot`, whatever the cell holds now. The value is kept in memory
     * even when the write throws; when the updater throws nothing changes.
     */
    method Set(snapshot: T, action: Action<T>)
      modifies this, storage
      ensures storage.readable == old(storage.readable) && storage.writable == old(storage.writable)
      ensures NextValue(snapshot, action).None? ==> value == old(value) && storage.entries == old(storage.entries)
      ensures NextValue(snapshot, action).Some? ==>
        value == NextValue(snapshot, action).value &&
        storage.entries == StoredAfter(old(storage.entries), old(storage.writable), key, codec.encode(value))
    {
      var next := NextValue(snapshot, action);
      if next.Some? {
        value := next.value;
        var _ := storage.SetItem(key, codec.encode(next.value));
      }
    }
  }

  const SESSION_PREFIX := "session_"

  /** What `Math.random().toString(36)` renders: "0", or "0." followed by base-36 digits. */
  predicate IsRandomText(t: string) {
    t == "0" || (|t| >= 2 && t[..2] == "0." && forall i :: 2 <= i < |t| ==> IsBase36Digit(t[i]))
  }

  /** `.substring(2, 9)` of the random text. */
  function RandomSuffix(randomText: string): (r: string)
    ensures |r| == Min(9, |randomText|) - Min(2, |randomText|) && |r| <= 7
    ensures forall i :: 0 <= i < |r| ==> 2 + i < |randomText| && r[i] == randomText[2 + i]
  {
    JsSubstring(randomText, 2, 9)
  }

  /** `generateSessionId()` at clock reading `now` with random text `randomText`. */
  function GenerateSessionId(now: nat, randomText: string): (id: string)
    ensures |id| > |SESSION_PREFIX| && id[..|SESSION_PREFIX|] == SESSION_PREFIX
  {
    SESSION_PREFIX + Decimal(now) + "_" + RandomSuffix(randomText)
  }

  datatype SessionParts = SessionParts(millis: nat, suffix: string)

  /** Splits "session_<digits>_<rest>" at its first underscore after the prefix. */
  function ParseSessionId(id: string): Option<SessionParts>
  {
    if |id| < |SESSION_PREFIX| || id[..|SESSION_PREFIX|] != SESSION_PREFIX then None
    else
      var rest := id[|SESSION_PREFIX|..];
      match IndexOf(rest, '_')
      case None => None
      case Some(k) =>
        if k == 0 || !AllDigits(rest[..k]) then None
        else Some(SessionParts(ParseDecimal(rest[..k]), rest[k + 1..]))
  }

  /** A generated id gives back its clock reading and its random suffix. */
  lemma {:induction false} ParseGeneratedSessionId(now: nat, randomText: string)
    ensures ParseSessionId(GenerateSessionId(now, randomText)) == Some(SessionParts(now, RandomSuffix(randomText)))
  {
    var d, suffix := Decimal(now), RandomSuffix(randomText);
    var id := GenerateSessionId(now, randomText);
    var rest := id[|SESSION_PREFIX|..];
    assert rest == d + "_" + suffix;
    assert '_' !in d by {
      forall i | 0 <= i < |d| ensures d[i] != '_' { assert IsDigit(d[i]); }
    }
    var k := IndexOf(rest, '_');
    assert rest[|d|] == '_';
    assert k.Some?;
    assert rest[..|d|] == d && rest[|d| + 1..] == suffix;
    ParseDecimalOfDecimal(now);
  }

  /** Ids generated at different clock readings differ, whatever the random parts. */
  lemma SessionIdsAtDistinctTimesDiffer(t1: nat, r1: string, t2: nat, r2: string)
    requires t1 != t2
    ensures GenerateSessionId(t1, r1) != GenerateSessionId(t2, r2)
  {
    ParseGeneratedSessionId(t1, r1);
    ParseGeneratedSessionId(t2, r2);
  }

  /** The random suffix has at most seven characters, each in [0-9a-z]. */
  lemma RandomSuffixShape(randomText: string)
    requires IsRandomText(randomText)
    ensures |RandomSuffix(randomText)| <= 7
    ensures forall i :: 0 <= i < |RandomSuffix(randomText)| ==> IsBase36Digit(RandomSuffix(randomText)[i])
  {
  }
}
