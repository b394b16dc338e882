/** The waterdrop meter: a lazily loaded, cached running total that every
    increment writes through to storage. */
module WaterMeter {
  import opened Base

  /** What the counter file holds: no file at all, or a dictionary that may or
      may not carry the total under "aiwaterdrops_consumed". */
  datatype CounterFile = NoFile | Stored(consumed: Option<real>)

  /** What reading the file gives: the stored total, 0.0 when the key or the
      file is missing. */
  function StoredTotal(file: CounterFile): real {
    match file
    case NoFile => 0.0
    case Stored(None) => 0.0
    case Stored(Some(v)) => v
  }

  /** The meter's state: the in-memory cache (`None` until first loaded) and the file. */
  datatype MeterState = MeterState(cache: Option<real>, file: CounterFile)

  /** The total the meter currently reports: the cache, or what a load would read. */
  function Current(s: MeterState): real {
    if s.cache.Some? then s.cache.value else StoredTotal(s.file)
  }

  /** `load_aiwaterdrops()`: sets the cache to the stored total (0.0 without a
      file) and returns it; the file is only read. */
  function LoadStep(s: MeterState): (r: (MeterState, real))
    ensures r.0.file == s.file && r.0.cache == Some(r.1)
    ensures s.file.NoFile? ==> r.1 == 0.0
    ensures s.file.Stored? && s.file.consumed.Some? ==> r.1 == s.file.consumed.value
  {
    var v := StoredTotal(s.file);
    (MeterState(Some(v), s.file), v)
  }

  /** `save_aiwaterdrops(value)`: the file now holds `value`; the cache is untouched. */
  function SaveStep(s: MeterState, value: real): (r: MeterState)
    ensures r.cache == s.cache
    ensures r.file == Stored(Some(value))
    ensures StoredTotal(r.file) == value
  {
    MeterState(s.cache, Stored(Some(value)))
  }

  /** `increment_aiwaterdrops(amount)`: loads first only when the cache is unset,
      adds `amount`, and writes the new total through to the file. */
  function IncrementStep(s: MeterState, amount: real): (r: MeterState)
    ensures r.cache == Some(Current(s) + amount)
    ensures s.cache.Some? ==> r.cache == Some(s.cache.value + amount)
    ensures StoredTotal(r.file) == r.cache.value
  {
    var loaded := if s.cache.None? then LoadStep(s).0 else s;
    SaveStep(MeterState(Some(loaded.cache.value + amount), loaded.file), loaded.cache.value + amount)
  }

  /** `get_aiwaterdrops()`: loads first only when the cache is unset and returns
      the cache; a set cache is returned without any change. */
  function GetStep(s: MeterState): (r: (MeterState, real))
    ensures r.1 == Current(s) && r.0.cache == Some(r.1) && r.0.file == s.file
    ensures s.cache.Some? ==> r.0 == s
  {
    if s.cache.None? then LoadStep(s) else (s, s.cache.value)
  }

  /** Saving does not touch the cache, so once loaded a `get` after `save(v)`
      still returns the cached total, whatever `v` was. */
  lemma SaveThenGet(s: MeterState, value: real)
    requires s.cache.Some?
    ensures GetStep(SaveStep(s, value)).1 == s.cache.value
  {
  }

  /** The state after the increments `amounts`, one after the other. */
  function IncrementAll(s: MeterState, amounts: seq<real>): MeterState
    decreases |amounts|
  {
    if |amounts| == 0 then s else IncrementStep(IncrementAll(s, amounts[..|amounts| - 1]), amounts[|amounts| - 1])
  }

  function Sum(amounts: seq<real>): real
    decreases |amounts|
  {
    if |amounts| == 0 then 0.0 else Sum(amounts[..|amounts| - 1]) + amounts[|amounts| - 1]
  }

  /** A run of increments adds up: the total grows by the sum of the amounts, and
      after at least one of them the file agrees with the cache. */
  lemma {:induction false} IncrementAllSums(s: MeterState, amounts: seq<real>)
    ensures Current(IncrementAll(s, amounts)) == Current(s) + Sum(amounts)
    ensures |amounts| > 0 ==> IncrementAll(s, amounts).cache.Some? &&
                              StoredTotal(IncrementAll(s, amounts).file) == Current(IncrementAll(s, amounts))
    decreases |amounts|
  {
    if |amounts| > 0 {
      IncrementAllSums(s, amounts[..|amounts| - 1]);
    }
  }

  /** The module's global state: `_aiwaterdrops_consumed` and the file it persists to. */
  class Meter {
    var cache: Option<real>
    var file: CounterFile

    function State(): MeterState
      reads this
    {
      MeterState(cache, file)
    }

    /** At import the cache is unset; the file is whatever is on disk. */
    constructor (file: CounterFile)
      ensures State() == MeterState(None, file)
    {
      cache := None;
      this.file := file;
    }

    method Load() returns (v: real)
      modifies this
      ensures (State(), v) == LoadStep(old(State()))
    {
      v := match file
        case NoFile => 0.0
        case Stored(consumed) => if consumed.Some? then consumed.value else 0.0;
      cache := Some(v);
    }

    method Save(value: real)
      modifies this
      ensures State() == SaveStep(old(State()), value)
    {
      file := Stored(Some(value));
    }

    method Increment(amount: real)
      modifies this
      ensures State() == IncrementStep(old(State()), amount)
    {
      if cache.None? {
        var _ := Load();
      }
      cache := Some(cache.value + amount);
      Save(cache.value);
    }

    method Get() returns (v: real)
      modifies this
      ensures (State(), v) == GetStep(old(State()))
    {
      if cache.None? {
        var _ := Load();
      }
      v := cache.value;
    }
  }
}
