/**
 * A URL with a mutable query, as `new URL(...)` with its `searchParams` is
 * used by functions/auth/start.js to build the authorize URL.
 */
module Urls {
  import opened Wrappers

  /** One name-value pair of a query. */
  type Param = (string, string)

  /** `searchParams.get(name)`: the value of the first pair named `name`. */
  function Lookup(ps: seq<Param>, name: string): Option<string> {
    if ps == [] then None
    else if ps[0].0 == name then Some(ps[0].1)
    else Lookup(ps[1..], name)
  }

  /** The pairs not named `name`, in their order. */
  function Without(ps: seq<Param>, name: string): seq<Param> {
    if ps == [] then []
    else if ps[0].0 == name then Without(ps[1..], name)
    else [ps[0]] + Without(ps[1..], name)
  }

  /** Gives the first pair named `name` the value `value` and drops the later pairs of that name. */
  function ReplaceFirst(ps: seq<Param>, name: string, value: string): seq<Param>
    requires Lookup(ps, name).Some?
  {
    if ps[0].0 == name then [(name, value)] + Without(ps[1..], name)
    else [ps[0]] + ReplaceFirst(ps[1..], name, value)
  }

  /**
   * `searchParams.set(name, value)`: afterwards `name` has the value
   * `value`; a name not present before is appended at the end.
   * `SetParamOthers` says what happens to the other pairs.
   */
  function SetParam(ps: seq<Param>, name: string, value: string): (r: seq<Param>)
    ensures Lookup(r, name) == Some(value)
    ensures Lookup(ps, name).None? ==> r == ps + [(name, value)]
  {
    if Lookup(ps, name).Some? then
      ReplaceFirst1(ps, name, value);
      ReplaceFirst(ps, name, value)
    else
      AppendNew(ps, name, value);
      ps + [(name, value)]
  }

  // ---- properties of the query operations --------------------------------

  /** Dropping a name removes it and keeps every other name's value. */
  lemma {:induction false} WithoutShape(ps: seq<Param>, name: string, n: string)
    ensures Lookup(Without(ps, name), name).None?
    ensures n != name ==> Lookup(Without(ps, name), n) == Lookup(ps, n)
  {
    if ps != [] {
      WithoutShape(ps[1..], name, n);
      if ps[0].0 != name {
        assert ([ps[0]] + Without(ps[1..], name))[1..] == Without(ps[1..], name);
      }
    }
  }

  lemma {:induction false} WithoutIdempotent(ps: seq<Param>, name: string)
    ensures Without(Without(ps, name), name) == Without(ps, name)
  {
    if ps != [] {
      WithoutIdempotent(ps[1..], name);
      if ps[0].0 != name {
        assert ([ps[0]] + Without(ps[1..], name))[1..] == Without(ps[1..], name);
      }
    }
  }

  /** Replacing finds the new value under `name`. */
  lemma {:induction false} ReplaceFirst1(ps: seq<Param>, name: string, value: string)
    requires Lookup(ps, name).Some?
    ensures Lookup(ReplaceFirst(ps, name, value), name) == Some(value)
  {
    if ps[0].0 != name {
      ReplaceFirst1(ps[1..], name, value);
      assert ([ps[0]] + ReplaceFirst(ps[1..], name, value))[1..] == ReplaceFirst(ps[1..], name, value);
    }
  }

  /** Replacing leaves the other names' values and the pairs without `name` as they were. */
  lemma {:induction false} ReplaceFirstOthers(ps: seq<Param>, name: string, value: string, n: string)
    requires Lookup(ps, name).Some?
    ensures n != name ==> Lookup(ReplaceFirst(ps, name, value), n) == Lookup(ps, n)
    ensures Without(ReplaceFirst(ps, name, value), name) == Without(ps, name)
  {
    if ps[0].0 == name {
      assert ([(name, value)] + Without(ps[1..], name))[1..] == Without(ps[1..], name);
      WithoutShape(ps[1..], name, n);
      WithoutIdempotent(ps[1..], name);
    } else {
      ReplaceFirstOthers(ps[1..], name, value, n);
      assert ([ps[0]] + ReplaceFirst(ps[1..], name, value))[1..] == ReplaceFirst(ps[1..], name, value);
    }
  }

  /** Appending a pair under a missing name leaves earlier lookups, and the pairs without that name, alone. */
  lemma {:induction false} AppendNew(ps: seq<Param>, name: string, value: string)
    requires Lookup(ps, name).None?
    ensures Lookup(ps + [(name, value)], name) == Some(value)
    ensures forall n :: n != name ==> Lookup(ps + [(name, value)], n) == Lookup(ps, n)
    ensures Without(ps + [(name, value)], name) == Without(ps, name)
  {
    if ps == [] {
      assert [(name, value)][1..] == [];
    } else {
      assert (ps + [(name, value)])[1..] == ps[1..] + [(name, value)];
      AppendNew(ps[1..], name, value);
    }
  }

  /** A list with no pair named `name` loses nothing when `name` is dropped. */
  lemma {:induction false} WithoutAbsent(ps: seq<Param>, name: string)
    requires Lookup(ps, name).None?
    ensures Without(ps, name) == ps
  {
    if ps != [] {
      WithoutAbsent(ps[1..], name);
      assert [ps[0]] + ps[1..] == ps;
    }
  }

  /** Replacing leaves one pair named `name` beside the pairs of other names. */
  lemma {:induction false} ReplaceFirstLength(ps: seq<Param>, name: string, value: string)
    requires Lookup(ps, name).Some?
    ensures |ReplaceFirst(ps, name, value)| == |Without(ps, name)| + 1
  {
    if ps[0].0 != name {
      ReplaceFirstLength(ps[1..], name, value);
    }
  }

  /**
   * `set` keeps every other name's value, and the pairs of other names in
   * their order; beside them exactly one pair remains, so no second pair
   * named `name` survives.
   */
  lemma SetParamOthers(ps: seq<Param>, name: string, value: string, n: string)
    ensures n != name ==> Lookup(SetParam(ps, name, value), n) == Lookup(ps, n)
    ensures Without(SetParam(ps, name, value), name) == Without(ps, name)
    ensures |SetParam(ps, name, value)| == |Without(ps, name)| + 1
  {
    if Lookup(ps, name).Some? {
      ReplaceFirstOthers(ps, name, value, n);
      ReplaceFirstLength(ps, name, value);
    } else {
      AppendNew(ps, name, value);
      WithoutAbsent(ps, name);
    }
  }

  /** No pair is named `name`: nothing is found. */
  lemma {:induction false} LookupAbsent(ps: seq<Param>, name: string)
    requires forall i :: 0 <= i < |ps| ==> ps[i].0 != name
    ensures Lookup(ps, name).None?
  {
    if ps != [] {
      LookupAbsent(ps[1..], name);
    }
  }

  /** The first pair named `name` is at `i`: its value is found. */
  lemma {:induction false} LookupAt(ps: seq<Param>, name: string, i: nat)
    requires i < |ps| && ps[i].0 == name
    requires forall j :: 0 <= j < i ==> ps[j].0 != name
    ensures Lookup(ps, name) == Some(ps[i].1)
  {
    if i > 0 {
      LookupAt(ps[1..], name, i - 1);
    }
  }

  /** Setting a name not yet present appends the pair. */
  lemma SetNew(ps: seq<Param>, name: string, value: string)
    requires forall i :: 0 <= i < |ps| ==> ps[i].0 != name
    ensures SetParam(ps, name, value) == ps + [(name, value)]
  {
    LookupAbsent(ps, name);
  }

  /** A URL object: its text up to the query, and its query parameters. */
  class Url {
    const base: string
    var params: seq<Param>

    /** `new URL(base)` for a base without a query. */
    constructor (base: string)
      ensures this.base == base && params == []
    {
      this.base := base;
      params := [];
    }

    /** `url.searchParams.set(name, value)` */
    method Set(name: string, value: string)
      modifies this
      ensures params == SetParam(old(params), name, value)
    {
      params := SetParam(params, name, value);
    }
  }
}
