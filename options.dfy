/**
  The request-parameter dictionary (`data_request_options_dict_manual`), the
  `MotuOptions` attribute wrapper the client receives, and the per-window
  rewrite of the dictionary's three window keys.
 */
module Options {
  import opened Wrappers

  /** A dictionary value: a string, a float (kept as a real), or the variable list. */
  datatype Value = Text(text: string) | Number(number: real) | Names(names: seq<string>)

  type Request = map<string, Value>

  const OUT_NAME := "out_name"
  const DATE_MIN := "date_min"
  const DATE_MAX := "date_max"

  /** The only keys the per-window loop writes. */
  const WINDOW_KEYS: set<string> := {OUT_NAME, DATE_MIN, DATE_MAX}

  /** A Python `dict` from strings to values, updated in place. */
  class Dict {
    var entries: Request

    constructor (initial: Request)
      ensures entries == initial
    {
      entries := initial;
    }

    /** `d[k] = v` */
    method Put(k: string, v: Value)
      modifies this
      ensures entries == old(entries)[k := v]
    {
      entries := entries[k := v];
    }
  }

  /**
    `MotuOptions(attrs)`: attribute reads look the name up in the wrapped
    dictionary and give `None` when it is missing; attribute writes go to the
    wrapped dictionary itself, so its owner sees them.
   */
  class MotuOptions {
    const attrs: Dict

    constructor (d: Dict)
      ensures attrs == d
    {
      attrs := d;
    }

    /** `__getattr__` */
    function GetAttr(k: string): (r: Option<Value>)
      reads attrs
      ensures r.None? <==> k !in attrs.entries
      ensures r.Some? ==> r.value == attrs.entries[k]
    {
      if k in attrs.entries then Some(attrs.entries[k]) else None
    }

    /** `__setattr__` */
    method SetAttr(k: string, v: Value)
      modifies attrs
      ensures attrs.entries == old(attrs.entries)[k := v]
      ensures GetAttr(k) == Some(v)
      ensures forall k' :: k' != k ==> GetAttr(k') == old(GetAttr(k'))
    {
      attrs.Put(k, v);
    }
  }

  /** A write through a fresh wrapper lands in the dictionary it wraps. */
  method WriteThrough(d: Dict, k: string, v: Value)
    modifies d
    ensures d.entries == old(d.entries)[k := v]
  {
    var options := new MotuOptions(d);
    options.SetAttr(k, v);
  }

  /** The dictionary after one window's three assignments. */
  function WithWindow(m: Request, outName: string, dateMin: string, dateMax: string): (r: Request)
    ensures r.Keys == m.Keys + WINDOW_KEYS
    ensures forall k :: k in m && k !in WINDOW_KEYS ==> r[k] == m[k]
    ensures r[OUT_NAME] == Text(outName) && r[DATE_MIN] == Text(dateMin) && r[DATE_MAX] == Text(dateMax)
  {
    m[OUT_NAME := Text(outName)][DATE_MIN := Text(dateMin)][DATE_MAX := Text(dateMax)]
  }

  /** A window's assignments overwrite everything the previous window's wrote: no state leaks between windows. */
  lemma WindowOverwritesWindow(m: Request, n1: string, a1: string, b1: string, n2: string, a2: string, b2: string)
    ensures WithWindow(WithWindow(m, n1, a1, b1), n2, a2, b2) == WithWindow(m, n2, a2, b2)
  {
    var l, r := WithWindow(WithWindow(m, n1, a1, b1), n2, a2, b2), WithWindow(m, n2, a2, b2);
    assert l.Keys == r.Keys;
    forall k | k in l
      ensures l[k] == r[k]
    {
      if k !in WINDOW_KEYS {
        assert l[k] == m[k] == r[k];
      }
    }
  }
}
