/** The pieces of the Fetch and URL standards the framework uses: header
    lists (`Headers`), search parameter lists (`URLSearchParams`) and URLs.
    Both lists are ordered name/value entries; header names are stored
    lower-cased, as a `Headers` object stores them. */
module Http {
  import opened Js
  import opened Strings

  datatype Entry = Entry(name: string, value: string)

  /** The values of the entries called `name`, in list order (`getAll`). */
  function ValuesOf(es: seq<Entry>, name: string): (vs: seq<string>)
    ensures |vs| <= |es|
  {
    if es == [] then []
    else (if es[0].name == name then [es[0].value] else []) + ValuesOf(es[1..], name)
  }

  /** The list with every entry called `name` removed (`delete`). */
  function Without(es: seq<Entry>, name: string): (r: seq<Entry>)
    ensures forall i :: 0 <= i < |r| ==> r[i].name != name && r[i] in es
  {
    if es == [] then []
    else (if es[0].name == name then [] else [es[0]]) + Without(es[1..], name)
  }

  /** Entries called `name` with the given values, in order. */
  function Named(name: string, values: seq<string>): (r: seq<Entry>)
    ensures |r| == |values|
    ensures forall i :: 0 <= i < |r| ==> r[i] == Entry(name, values[i])
  {
    if values == [] then [] else [Entry(name, values[0])] + Named(name, values[1..])
  }

  lemma {:induction false} ValuesOfConcat(a: seq<Entry>, b: seq<Entry>, name: string)
    ensures ValuesOf(a + b, name) == ValuesOf(a, name) + ValuesOf(b, name)
  {
    if a != [] {
      assert (a + b)[1..] == a[1..] + b;
      ValuesOfConcat(a[1..], b, name);
    } else {
      assert a + b == b;
    }
  }

  lemma {:induction false} WithoutConcat(a: seq<Entry>, b: seq<Entry>, name: string)
    ensures Without(a + b, name) == Without(a, name) + Without(b, name)
  {
    if a != [] {
      assert (a + b)[1..] == a[1..] + b;
      WithoutConcat(a[1..], b, name);
    } else {
      assert a + b == b;
    }
  }

  lemma {:induction false} ValuesOfWithout(es: seq<Entry>, name: string, other: string)
    ensures ValuesOf(Without(es, name), name) == []
    ensures other != name ==> ValuesOf(Without(es, name), other) == ValuesOf(es, other)
  {
    if es != [] {
      ValuesOfWithout(es[1..], name, other);
      ValuesOfConcat(if es[0].name == name then [] else [es[0]], Without(es[1..], name), name);
      ValuesOfConcat(if es[0].name == name then [] else [es[0]], Without(es[1..], name), other);
    }
  }

  lemma {:induction false} WithoutIdempotent(es: seq<Entry>, name: string)
    ensures Without(Without(es, name), name) == Without(es, name)
  {
    if es != [] {
      WithoutIdempotent(es[1..], name);
      WithoutConcat(if es[0].name == name then [] else [es[0]], Without(es[1..], name), name);
    }
  }

  lemma {:induction false} NamedValues(name: string, values: seq<string>, other: string)
    ensures ValuesOf(Named(name, values), name) == values
    ensures other != name ==> ValuesOf(Named(name, values), other) == []
    ensures Without(Named(name, values), name) == []
    ensures other != name ==> Without(Named(name, values), other) == Named(name, values)
  {
    if values != [] {
      NamedValues(name, values[1..], other);
      assert Named(name, values)[1..] == Named(name, values[1..]);
    }
  }

  lemma {:induction false} NamedSnoc(name: string, vs: seq<string>, v: string)
    ensures Named(name, vs + [v]) == Named(name, vs) + [Entry(name, v)]
  {
    if vs != [] {
      assert (vs + [v])[1..] == vs[1..] + [v];
      NamedSnoc(name, vs[1..], v);
    }
  }

  lemma {:induction false} NamedConcat(name: string, a: seq<string>, b: seq<string>)
    ensures Named(name, a + b) == Named(name, a) + Named(name, b)
  {
    if a == [] {
      assert a + b == b;
    } else {
      assert (a + b)[1..] == a[1..] + b;
      NamedConcat(name, a[1..], b);
    }
  }

  /** The first entry called `name` takes `value`; the later ones are dropped. */
  function ReplaceFirst(es: seq<Entry>, name: string, value: string): (r: seq<Entry>)
    requires ValuesOf(es, name) != []
    ensures ValuesOf(r, name) == [value]
    ensures Without(r, name) == Without(es, name)
  {
    if es[0].name == name then
      ValuesOfWithout(es[1..], name, name);
      WithoutIdempotent(es[1..], name);
      [Entry(name, value)] + Without(es[1..], name)
    else
      var tail := ReplaceFirst(es[1..], name, value);
      assert ([es[0]] + tail)[1..] == tail;
      [es[0]] + tail
  }

  /** `set(name, value)` of both `Headers` and `URLSearchParams`: the first
      entry called `name` gets the value and the others are removed, or the
      entry is appended when there is none. */
  function SetEntry(es: seq<Entry>, name: string, value: string): (r: seq<Entry>)
    ensures ValuesOf(r, name) == [value]
    ensures Without(r, name) == Without(es, name)
  {
    if ValuesOf(es, name) != [] then ReplaceFirst(es, name, value)
    else
      ValuesOfConcat(es, [Entry(name, value)], name);
      WithoutConcat(es, [Entry(name, value)], name);
      es + [Entry(name, value)]
  }

  lemma {:induction false} NoValuesWithoutSame(es: seq<Entry>, name: string)
    requires ValuesOf(es, name) == []
    ensures Without(es, name) == es
  {
    if es != [] {
      ValuesOfConcat([es[0]], es[1..], name);
      assert es == [es[0]] + es[1..];
      NoValuesWithoutSame(es[1..], name);
    }
  }

  // ---------------------------------------------------------------------
  // Headers: names compare case-insensitively, so they are stored lower-cased.
  // ---------------------------------------------------------------------

  /** `headers.get(name)`: all values of that name joined by ", ", or null. */
  function HeaderGet(es: seq<Entry>, name: string): (r: Option<string>)
    ensures r.None? <==> ValuesOf(es, Lower(name)) == []
  {
    var vs := ValuesOf(es, Lower(name));
    if vs == [] then None else Some(Join(vs, ", "))
  }

  predicate HeaderHas(es: seq<Entry>, name: string) {
    ValuesOf(es, Lower(name)) != []
  }

  function HeaderAppend(es: seq<Entry>, name: string, value: string): seq<Entry> {
    es + [Entry(Lower(name), value)]
  }

  function HeaderSet(es: seq<Entry>, name: string, value: string): (r: seq<Entry>)
    ensures HeaderGet(r, name) == Some(value)
  {
    SetEntry(es, Lower(name), value)
  }

  /** `set` leaves every other header as it was. */
  lemma {:induction false} HeaderSetOther(es: seq<Entry>, name: string, value: string, other: string)
    requires Lower(other) != Lower(name)
    ensures HeaderGet(HeaderSet(es, name, value), other) == HeaderGet(es, other)
  {
    var r := HeaderSet(es, name, value);
    ValuesOfWithout(r, Lower(name), Lower(other));
    ValuesOfWithout(es, Lower(name), Lower(other));
  }

  /** `append` leaves every other header as it was. */
  lemma {:induction false} HeaderAppendOther(es: seq<Entry>, name: string, value: string, other: string)
    requires Lower(other) != Lower(name)
    ensures HeaderGet(HeaderAppend(es, name, value), other) == HeaderGet(es, other)
  {
    ValuesOfConcat(es, [Entry(Lower(name), value)], Lower(other));
    assert ValuesOf([Entry(Lower(name), value)], Lower(other)) == [];
    assert ValuesOf(HeaderAppend(es, name, value), Lower(other)) == ValuesOf(es, Lower(other));
  }

  /** `append` adds the value after the ones already there. */
  lemma {:induction false} HeaderAppendValues(es: seq<Entry>, name: string, value: string)
    ensures ValuesOf(HeaderAppend(es, name, value), Lower(name)) == ValuesOf(es, Lower(name)) + [value]
  {
    ValuesOfConcat(es, [Entry(Lower(name), value)], Lower(name));
  }

  /** A `Headers` object. Its identity matters: the framework compares
      header objects with `!==`. */
  class Headers {
    var entries: seq<Entry>

    constructor ()
      ensures entries == []
    {
      entries := [];
    }

    /** `new Headers(init)`: a fresh object holding a copy of init's list. */
    constructor Copy(init: Headers)
      ensures entries == init.entries
    {
      entries := init.entries;
    }

    /** `new Headers(list)`. */
    constructor FromList(es: seq<Entry>)
      ensures entries == es
    {
      entries := es;
    }

    function Get(name: string): Option<string>
      reads this
    {
      HeaderGet(entries, name)
    }

    method Append(name: string, value: string)
      modifies this
      ensures entries == HeaderAppend(old(entries), name, value)
    {
      entries := entries + [Entry(Lower(name), value)];
    }

    method Set(name: string, value: string)
      modifies this
      ensures entries == HeaderSet(old(entries), name, value)
    {
      entries := SetEntry(entries, Lower(name), value);
    }
  }

  // ---------------------------------------------------------------------
  // URLs
  // ---------------------------------------------------------------------

  /** A parsed URL as far as the framework looks at it: the path and the
      search parameters (origin, hash and credentials are carried along
      unchanged and are not modelled). */
  datatype UrlValue = UrlValue(pathname: string, search: seq<Entry>)

  /** A `URL` object, which the client code mutates in place. */
  class Url {
    var pathname: string
    var search: seq<Entry>

    /** `new URL(u)`: a fresh copy. */
    constructor (u: UrlValue)
      ensures pathname == u.pathname && search == u.search
    {
      pathname := u.pathname;
      search := u.search;
    }

    function Value(): UrlValue
      reads this
    {
      UrlValue(pathname, search)
    }

    method DeleteParam(name: string)
      modifies this
      ensures pathname == old(pathname) && search == Without(old(search), name)
    {
      search := Without(search, name);
    }

    method AppendParam(name: string, value: string)
      modifies this
      ensures pathname == old(pathname) && search == old(search) + [Entry(name, value)]
    {
      search := search + [Entry(name, value)];
    }

    method SetParam(name: string, value: string)
      modifies this
      ensures pathname == old(pathname) && search == SetEntry(old(search), name, value)
    {
      search := SetEntry(search, name, value);
    }
  }
}
