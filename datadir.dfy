/** The data directory of a measurement: one folder per scan, whose entries
    are numbered `A0, A1, …` and listed, with the state they were taken in,
    in `meta/list.csv`. */

module DataDir {
  import opened Wrappers
  import opened Values
  import opened Text

  /** `ScanDir.TYPES[FileHDF5]`, the only output type. */
  const TYPE_HDF5: string := "hdf5"

  /** `f'A{count}'`, the name of the entry with number `count`. */
  function Prefix(count: nat): (r: string)
    ensures |r| >= 2 && r[0] == 'A'
  {
    "A" + NatToString(count)
  }

  /** Distinct entry numbers give distinct entry names. */
  lemma PrefixInjective(a: nat, b: nat)
    ensures Prefix(a) == Prefix(b) <==> a == b
  {
    NatToStringInjective(a, b);
    if Prefix(a) == Prefix(b) {
      assert Prefix(a)[1..] == NatToString(a);
      assert Prefix(b)[1..] == NatToString(b);
    }
  }

  /** The list record of an entry: `_prefix` and `_type`, then updated
      with the state. */
  function Record(prefix: string, state: Entries): Entries {
    Update([("_prefix", Str(prefix)), ("_type", Str(TYPE_HDF5))], state)
  }

  /** A record starts with `_prefix` and `_type`, and every key the state
      gives overrides them. */
  lemma RecordSpec(prefix: string, state: Entries, key: string)
    requires UniqueKeys(state)
    ensures var r := Record(prefix, state);
      |r| >= 2 && r[0].0 == "_prefix" && r[1].0 == "_type" &&
      Get(r, key) ==
        if HasKey(state, key) then Get(state, key)
        else if key == "_prefix" then Some(Str(prefix))
        else if key == "_type" then Some(Str(TYPE_HDF5))
        else None
  {
    var base := [("_prefix", Str(prefix)), ("_type", Str(TYPE_HDF5))];
    UpdateKeepsOrder(base, state);
    UpdateGet(base, state, key);
    if key == "_type" {
      FindIsFirst(base, key, 1);
    }
  }

  /** The folder of one scan. */
  class ScanDir {
    const entry: string
    var list: seq<Entries>
    var count: nat
    /** The states passed to `addEntry`, in order. */
    ghost var states: seq<Entries>

    /** Entry `i` is listed with prefix `A{i}` and the `i`-th state. */
    ghost predicate Valid()
      reads this
    {
      count == |list| == |states| &&
      forall i :: 0 <= i < |list| ==> list[i] == Record(Prefix(i), states[i])
    }

    /** `ScanDir(parent, entry, datadir)`: the folders are created elsewhere. */
    constructor (entry: string)
      ensures Valid() && this.entry == entry && list == [] && count == 0 && states == []
    {
      this.entry := entry;
      list, count := [], 0;
      states := [];
    }

    /** `addEntry(state)`: lists one more entry and returns the name of its
        data file under `data/`. */
    method AddEntry(state: Entries) returns (file: string)
      requires Valid()
      modifies this
      ensures Valid()
      ensures file == Prefix(old(count))
      ensures list == old(list) + [Record(Prefix(old(count)), state)]
      ensures count == old(count) + 1 && states == old(states) + [state]
    {
      var prefix := Prefix(count);
      var metadata := Update([("_prefix", Str(prefix)), ("_type", Str(TYPE_HDF5))], state);
      list := list + [metadata];
      states := states + [state];
      count := count + 1;
      return prefix;
    }

    /** `writeList(list)`: the rows written to `meta/list.csv`. */
    method WriteList(given: Option<seq<Entries>>) returns (rows: seq<Entries>)
      ensures given.Some? ==> rows == given.value
      ensures given.None? ==> rows == list
    {
      if given.Some? {
        return given.value;
      }
      return list;
    }
  }

  /** Two entries of one folder whose states do not set `_prefix` are
      listed under different prefixes, those of their numbers. */
  lemma ListedPrefixes(states: seq<Entries>, i: nat, j: nat)
    requires i < |states| && j < |states|
    requires UniqueKeys(states[i]) && UniqueKeys(states[j])
    requires !HasKey(states[i], "_prefix") && !HasKey(states[j], "_prefix")
    ensures Get(Record(Prefix(i), states[i]), "_prefix") == Some(Str(Prefix(i)))
    ensures i != j ==>
      Get(Record(Prefix(i), states[i]), "_prefix") != Get(Record(Prefix(j), states[j]), "_prefix")
  {
    RecordSpec(Prefix(i), states[i], "_prefix");
    RecordSpec(Prefix(j), states[j], "_prefix");
    PrefixInjective(i, j);
  }

  /** A point in time, as `datetime` fields. */
  datatype Date = Date(year: nat, month: nat, day: nat, hour: nat, minute: nat, second: nat)

  /** Every field fits its width in the `%Y%m%d-%H%M%S` stamp. Years
      below 1000 are left out: how `%Y` prints them depends on the
      platform's `strftime`. */
  predicate Printable(d: Date) {
    1000 <= d.year < 10000 && d.month < 100 && d.day < 100 &&
    d.hour < 100 && d.minute < 100 && d.second < 100
  }

  /** `f'{date:%Y%m%d-%H%M%S}'`. */
  function Stamp(d: Date): string {
    ZeroPad(d.year, 4) + ZeroPad(d.month, 2) + ZeroPad(d.day, 2) + "-" +
    ZeroPad(d.hour, 2) + ZeroPad(d.minute, 2) + ZeroPad(d.second, 2)
  }

  /** The entry name `createScan` gives a scan, from the slug of its name. */
  function EntryName(d: Date, slug: string): string {
    Stamp(d) + "_" + slug
  }

  /** A stamp is fifteen characters, with the `-` at position 8. */
  lemma StampLength(d: Date)
    requires Printable(d)
    ensures |Stamp(d)| == 15 && Stamp(d)[8] == '-'
  {
    ZeroPadSpec(d.year, 4);
    ZeroPadSpec(d.month, 2);
    ZeroPadSpec(d.day, 2);
    ZeroPadSpec(d.hour, 2);
    ZeroPadSpec(d.minute, 2);
    ZeroPadSpec(d.second, 2);
  }

  /** Reading a zero-padded field back out of a string. */
  lemma FieldAt(s: string, at: nat, n: nat, w: nat)
    requires w >= 1 && n < Pow10(w)
    requires at + w <= |s| && s[at..at + w] == ZeroPad(n, w)
    ensures DecimalValue(s[at..at + w]) == n
  {
    ZeroPadSpec(n, w);
  }

  /** Each field of a stamp, by its position. */
  lemma StampFields(d: Date)
    requires Printable(d)
    ensures var s := Stamp(d);
      |s| == 15 &&
      DecimalValue(s[0..4]) == d.year && DecimalValue(s[4..6]) == d.month &&
      DecimalValue(s[6..8]) == d.day && DecimalValue(s[9..11]) == d.hour &&
      DecimalValue(s[11..13]) == d.minute && DecimalValue(s[13..15]) == d.second
  {
    StampLength(d);
    var s := Stamp(d);
    assert s[0..4] == ZeroPad(d.year, 4);
    assert s[4..6] == ZeroPad(d.month, 2);
    assert s[6..8] == ZeroPad(d.day, 2);
    assert s[9..11] == ZeroPad(d.hour, 2);
    assert s[11..13] == ZeroPad(d.minute, 2);
    assert s[13..15] == ZeroPad(d.second, 2);
    FieldAt(s, 0, d.year, 4);
    FieldAt(s, 4, d.month, 2);
    FieldAt(s, 6, d.day, 2);
    FieldAt(s, 9, d.hour, 2);
    FieldAt(s, 11, d.minute, 2);
    FieldAt(s, 13, d.second, 2);
  }

  /** Scans created at different seconds get different folders, and the
      name separates date and slug: the names agree exactly when both do. */
  lemma EntryNameInjective(d1: Date, slug1: string, d2: Date, slug2: string)
    requires Printable(d1) && Printable(d2)
    ensures EntryName(d1, slug1) == EntryName(d2, slug2) <==> d1 == d2 && slug1 == slug2
  {
    if EntryName(d1, slug1) == EntryName(d2, slug2) {
      StampFields(d1);
      StampFields(d2);
      var n1, n2 := EntryName(d1, slug1), EntryName(d2, slug2);
      assert n1[..15] == Stamp(d1) && n1[16..] == slug1;
      assert n2[..15] == Stamp(d2) && n2[16..] == slug2;
    }
  }

  /** `b` lies in a later second than `a`: the fields compared from the
      year down to the second. */
  predicate Later(a: Date, b: Date) {
    b.year > a.year || (b.year == a.year &&
    (b.month > a.month || (b.month == a.month &&
    (b.day > a.day || (b.day == a.day &&
    (b.hour > a.hour || (b.hour == a.hour &&
    (b.minute > a.minute || (b.minute == a.minute && b.second > a.second)))))))))
  }

  lemma LaterTransitive(a: Date, b: Date, c: Date)
    requires Later(a, b) && Later(b, c)
    ensures Later(a, c)
  {
  }

  /** The wall clock `datetime.now()` reads, to the second; `now` is its
      last reading. */
  class Clock {
    var now: Date

    ghost predicate Valid()
      reads this
    {
      Printable(now)
    }

    constructor (start: Date)
      requires Printable(start)
      ensures Valid() && now == start
    {
      now := start;
    }

    /** `time.sleep(1)`, then `datetime.now()`. The reading comes from the
        world and is passed in; after a whole second of sleep it lies in a
        later second than the last one. */
    method SleepThenNow(reading: Date) returns (d: Date)
      requires Valid() && Printable(reading) && Later(now, reading)
      modifies this
      ensures Valid() && d == reading && now == reading
    {
      now := reading;
      d := reading;
    }
  }

  /** `DataDir.createScan(name, date)`: a new, empty scan folder named by
      the date and the slug of the name. Without a date it sleeps a second
      and reads the clock; `reading` is what the clock then shows. */
  method CreateScan(slug: string, date: Option<Date>, clock: Clock, reading: Date) returns (dir: ScanDir)
    requires clock.Valid()
    requires date.None? ==> Printable(reading) && Later(clock.now, reading)
    modifies clock
    ensures fresh(dir) && dir.Valid() && dir.list == [] && dir.count == 0 && clock.Valid()
    ensures date.Some? ==> dir.entry == EntryName(date.value, slug) && clock.now == old(clock.now)
    ensures date.None? ==> dir.entry == EntryName(reading, slug) && clock.now == reading
  {
    var d: Date;
    if date.None? {
      d := clock.SleepThenNow(reading);
    } else {
      d := date.value;
    }
    dir := new ScanDir(EntryName(d, slug));
  }

  /** A scan created after the one-second sleep is named apart from the
      scan before it, whatever the two names. */
  lemma LaterEntryDistinct(a: Date, slugA: string, b: Date, slugB: string)
    requires Printable(a) && Printable(b) && Later(a, b)
    ensures EntryName(a, slugA) != EntryName(b, slugB)
  {
    EntryNameInjective(a, slugA, b, slugB);
  }

  /** Readings each in a later second than the one before are ordered. */
  lemma {:induction false} LaterChain(readings: seq<Date>, i: nat, j: nat)
    requires i < j < |readings|
    requires forall k :: 0 <= k < |readings| - 1 ==> Later(readings[k], readings[k + 1])
    ensures Later(readings[i], readings[j])
    decreases j - i
  {
    if i + 1 < j {
      LaterChain(readings, i + 1, j);
      LaterTransitive(readings[i], readings[i + 1], readings[j]);
    }
  }

  /** Scans created one after another without a date, each after the
      one-second sleep, get pairwise different folders, whatever their
      names. */
  lemma DefaultEntriesDistinct(readings: seq<Date>, slugs: seq<string>, i: nat, j: nat)
    requires |slugs| == |readings| && i < j < |readings|
    requires forall k :: 0 <= k < |readings| ==> Printable(readings[k])
    requires forall k :: 0 <= k < |readings| - 1 ==> Later(readings[k], readings[k + 1])
    ensures EntryName(readings[i], slugs[i]) != EntryName(readings[j], slugs[j])
  {
    LaterChain(readings, i, j);
    LaterEntryDistinct(readings[i], slugs[i], readings[j], slugs[j]);
  }
}
