/** The pitch helpers and the attribute bag of `evaluation/utils.py`.

    `log2` and `np.median` are floating-point library routines: they are
    parameters here, uninterpreted. Praat's pitch tracker is not part of this
    model; only the hop size it is given is. */
module Utils {
  import opened Errors

  // ---------------------------------------------------------------------
  // JsonHParams
  // ---------------------------------------------------------------------

  /** A keyword-argument value: a number, a string, or a nested dict (in
      insertion order). */
  datatype Value =
    | Number(x: real)
    | Text(s: string)
    | Dict(items: seq<(string, Value)>)

  /** What an attribute of a `JsonHParams` holds: the value it was given,
      or, for a dict passed to the constructor, a nested `JsonHParams`. */
  datatype Attr = Plain(v: Value) | Nested(p: JsonHParams)

  function KeysOf(items: seq<(string, Value)>): set<string>
  {
    set i | 0 <= i < |items| :: items[i].0
  }

  /** One more item adds its key. */
  lemma KeysOfPrefix(items: seq<(string, Value)>, i: nat)
    requires i < |items|
    ensures KeysOf(items[..i + 1]) == KeysOf(items[..i]) + {items[i].0}
  {
    assert items[..i + 1] == items[..i] + [items[i]];
  }

  /** Keyword arguments never repeat a name. */
  predicate DistinctKeys(items: seq<(string, Value)>)
  {
    forall i, j :: 0 <= i < j < |items| ==> items[i].0 != items[j].0
  }

  /** A dict as Python builds it: no key twice, at any depth. */
  predicate WellFormed(v: Value)
  {
    match v
    case Dict(items) =>
      DistinctKeys(items) && forall i :: 0 <= i < |items| ==> WellFormed(items[i].1)
    case _ => true
  }

  /** What `self[k] = v` stores for a keyword value: the value itself, or,
      for a dict, a nested instance whose attributes are the dict's keys,
      each plain item bound to its value and each dict item to a further
      nested instance. */
  predicate Binds(a: Attr, v: Value)
    reads if a.Nested? then {a.p} else {}
  {
    if v.Dict? then
      && a.Nested?
      && a.p.attrs.Keys == KeysOf(v.items)
      && forall l :: 0 <= l < |v.items| ==>
           && (!v.items[l].1.Dict? ==> a.p.attrs[v.items[l].0] == Plain(v.items[l].1))
           && (v.items[l].1.Dict? ==> a.p.attrs[v.items[l].0].Nested?)
    else a == Plain(v)
  }

  /** The loop of `__init__`: `self[k] = v` for each keyword in turn. */
  method BindAll(kwargs: seq<(string, Value)>) returns (m: map<string, Attr>)
    requires WellFormed(Dict(kwargs))
    ensures m.Keys == KeysOf(kwargs)
    ensures forall i :: 0 <= i < |kwargs| ==> Binds(m[kwargs[i].0], kwargs[i].1)
    ensures forall i :: 0 <= i < |kwargs| && kwargs[i].1.Dict? ==>
      m[kwargs[i].0].Nested? && fresh(m[kwargs[i].0].p)
    decreases Dict(kwargs), 1
  {
    m := map[];
    var i := 0;
    while i < |kwargs|
      invariant 0 <= i <= |kwargs|
      invariant m.Keys == KeysOf(kwargs[..i])
      invariant forall j :: 0 <= j < i ==> Binds(m[kwargs[j].0], kwargs[j].1)
      invariant forall j :: 0 <= j < i && kwargs[j].1.Dict? ==>
        m[kwargs[j].0].Nested? && fresh(m[kwargs[j].0].p)
    {
      var (k, v) := kwargs[i];
      assert v < Dict(kwargs);
      var a := Wrap(v);
      m := m[k := a];
      KeysOfPrefix(kwargs, i);
      i := i + 1;
    }
    assert kwargs[..i] == kwargs;
  }

  /** `if type(v) == dict: v = JsonHParams(**v)`. */
  method Wrap(v: Value) returns (a: Attr)
    requires WellFormed(v)
    ensures Binds(a, v)
    ensures v.Dict? ==> a.Nested? && fresh(a.p)
    decreases v, 3
  {
    if v.Dict? {
      var child := new JsonHParams(v.items);
      a := Nested(child);
    } else {
      a := Plain(v);
    }
  }

  class JsonHParams {
    /** `self.__dict__`. */
    var attrs: map<string, Attr>

    /** `JsonHParams(**kwargs)`: every keyword becomes an attribute; a dict
        value becomes a fresh nested `JsonHParams` over the same items. The
        bindings are collected first and stored at once; nothing can observe
        the object between the `setattr` calls of the source. */
    constructor (kwargs: seq<(string, Value)>)
      requires WellFormed(Dict(kwargs))
      ensures attrs.Keys == KeysOf(kwargs)
      ensures forall i :: 0 <= i < |kwargs| ==> Binds(attrs[kwargs[i].0], kwargs[i].1)
      ensures forall i :: 0 <= i < |kwargs| && kwargs[i].1.Dict? ==>
        attrs[kwargs[i].0].Nested? && fresh(attrs[kwargs[i].0].p)
      decreases Dict(kwargs), 2
    {
      var m := BindAll(kwargs);
      attrs := m;
    }

    /** `len(h)`: the number of attributes. */
    function Len(): (n: nat)
      reads this
      ensures n == |attrs.Keys|
    {
      |attrs|
    }

    /** `key in h`. */
    predicate Contains(key: string): (b: bool)
      reads this
      ensures b <==> key in attrs.Keys
      ensures b ==> Len() > 0
    {
      key in attrs
    }

    /** `h[key]`: `getattr` raises `AttributeError` for a missing name. */
    function GetItem(key: string): (r: Result<Attr>)
      reads this
      ensures r.Ok? <==> Contains(key)
      ensures r.Ok? ==> r.value == attrs[key]
      ensures r.Err? ==> r.error == AttributeError(key)
    {
      if key in attrs then Ok(attrs[key]) else Err(AttributeError(key))
    }

    /** `h[key] = value`: binds `key`, leaves every other attribute alone; a
        dict stored this way is not converted. */
    method SetItem(key: string, value: Attr)
      modifies this
      ensures Contains(key) && GetItem(key) == Ok(value)
      ensures forall k :: k != key ==> GetItem(k) == old(GetItem(k))
      ensures Len() == old(Len()) + (if old(Contains(key)) then 0 else 1)
    {
      attrs := attrs[key := value];
    }
  }

  // ---------------------------------------------------------------------
  // Hop size
  // ---------------------------------------------------------------------

  /** `np.round`: to the nearest integer, halves to the even neighbour. */
  function RoundHalfEven(x: real): (r: int)
    ensures x - 0.5 <= r as real <= x + 0.5
    ensures (r as real == x - 0.5 || r as real == x + 0.5) ==> r % 2 == 0
  {
    var f := x.Floor;
    var d := x - f as real;
    if d < 0.5 then f
    else if d > 0.5 then f + 1
    else if f % 2 == 0 then f
    else f + 1
  }

  /** `int(np.round(cfg.hop_size * speed))`. */
  function HopSize(hop: int, speed: real): (r: int)
    ensures speed == 1.0 ==> r == hop
  {
    RoundHalfEven(hop as real * speed)
  }

  // ---------------------------------------------------------------------
  // Cents
  // ---------------------------------------------------------------------

  /** `f0_hz[f0_hz != 0]`: the voiced frames, in order. */
  function Voiced(f0: seq<real>): (r: seq<real>)
    ensures multiset(r) == multiset(f0)[0.0 := 0]
    ensures forall x :: x in r ==> x != 0.0
  {
    if f0 == [] then []
    else
      assert f0 == [f0[0]] + f0[1..];
      (if f0[0] == 0.0 then [] else [f0[0]]) + Voiced(f0[1..])
  }

  /** Filtering keeps the order of the voiced frames. */
  lemma {:induction false} VoicedAppend(a: seq<real>, b: seq<real>)
    ensures Voiced(a + b) == Voiced(a) + Voiced(b)
  {
    if a == [] {
      assert a + b == b;
    } else {
      assert (a + b)[0] == a[0];
      assert (a + b)[1..] == a[1..] + b;
      VoicedAppend(a[1..], b);
    }
  }

  /** `1200 * log2(f / 440)`. */
  function Cent(log2: real -> real, f: real): real
  {
    1200.0 * log2(f / 440.0)
  }

  /** `get_cents`: the voiced frames, each converted to cents. */
  function GetCents(f0: seq<real>, log2: real -> real): (r: seq<real>)
    ensures |r| == |Voiced(f0)|
    ensures forall i :: 0 <= i < |r| ==> r[i] == Cent(log2, Voiced(f0)[i])
  {
    if f0 == [] then []
    else (if f0[0] == 0.0 then [] else [Cent(log2, f0[0])]) + GetCents(f0[1..], log2)
  }

  /** `get_pitch_sub_median`: the cents minus their median. */
  function GetPitchSubMedian(f0: seq<real>, log2: real -> real, median: seq<real> -> real)
    : (r: seq<real>)
    ensures |r| == |Voiced(f0)|
    ensures forall i :: 0 <= i < |r| ==> r[i] + median(GetCents(f0, log2)) == GetCents(f0, log2)[i]
  {
    var cents := GetCents(f0, log2);
    seq(|cents|, i requires 0 <= i < |cents| => cents[i] - median(cents))
  }

  /** Subtracting one common offset keeps every difference between frames. */
  lemma SubMedianKeepsShape(f0: seq<real>, log2: real -> real, median: seq<real> -> real,
                            i: nat, j: nat)
    requires i < |Voiced(f0)| && j < |Voiced(f0)|
    ensures var r := GetPitchSubMedian(f0, log2, median);
            var c := GetCents(f0, log2);
            r[i] - r[j] == c[i] - c[j]
  {
  }
}
