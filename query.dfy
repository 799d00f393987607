/** `URLSearchParams` as the API clients use it: names and values appended in order,
    serialised as `name=value` pairs joined by `&`, and glued to a path with `?` only
    when there is at least one pair. Percent-encoding is outside the model. */
module Query {
  import opened Wrappers
  import opened JsText

  /** The pairs of a `URLSearchParams`, in append order. */
  type Params = seq<(string, string)>

  /** `params.get(name)`: the value of the first pair with that name. */
  function Lookup(p: Params, name: string): Option<string>
  {
    if p == [] then None
    else if p[0].0 == name then Some(p[0].1)
    else Lookup(p[1..], name)
  }

  /** A lookup fails exactly when no pair has the name, and otherwise finds a pair of
      the parameters. */
  lemma {:induction false} LookupFinds(p: Params, name: string)
    ensures Lookup(p, name).None? <==> forall i :: 0 <= i < |p| ==> p[i].0 != name
    ensures Lookup(p, name).Some? ==> (name, Lookup(p, name).value) in p
  {
    if p != [] {
      LookupFinds(p[1..], name);
      if p[0].0 != name {
        forall i | 0 < i < |p| ensures p[i] == p[1..][i - 1] {}
      }
    }
  }

  /** `params.append(name, value)` leaves earlier lookups alone and answers a lookup of
      a name not seen before with the new value. */
  lemma {:induction false} LookupAppend(p: Params, n: string, v: string, name: string)
    ensures Lookup(p + [(n, v)], name) ==
            if Lookup(p, name).Some? then Lookup(p, name)
            else if n == name then Some(v) else None
  {
    if p != [] {
      assert (p + [(n, v)])[1..] == p[1..] + [(n, v)];
      LookupAppend(p[1..], n, v, name);
    }
  }

  /** `if (cond) params.append(name, value)`. */
  function AppendIf(p: Params, cond: bool, n: string, v: string): Params
  {
    if cond then p + [(n, v)] else p
  }

  /** What a lookup answers after a conditional append. */
  lemma LookupAppendIf(p: Params, cond: bool, n: string, v: string, name: string)
    ensures Lookup(AppendIf(p, cond, n, v), name) ==
            if Lookup(p, name).Some? then Lookup(p, name) else if cond && n == name then Some(v) else None
  {
    if cond {
      LookupAppend(p, n, v, name);
    }
  }

  /** Four conditional appends of distinct names, as the list queries of the API clients
      make them: each name is present exactly when its condition holds, with its own
      value, and no other name is present. */
  lemma LookupOfFourAppends(c1: bool, n1: string, v1: string, c2: bool, n2: string, v2: string,
                            c3: bool, n3: string, v3: string, c4: bool, n4: string, v4: string)
    requires n1 != n2 && n1 != n3 && n1 != n4 && n2 != n3 && n2 != n4 && n3 != n4
    ensures var p := AppendIf(AppendIf(AppendIf(AppendIf([], c1, n1, v1), c2, n2, v2), c3, n3, v3), c4, n4, v4);
            && Lookup(p, n1) == (if c1 then Some(v1) else None)
            && Lookup(p, n2) == (if c2 then Some(v2) else None)
            && Lookup(p, n3) == (if c3 then Some(v3) else None)
            && Lookup(p, n4) == (if c4 then Some(v4) else None)
            && forall name :: name !in {n1, n2, n3, n4} ==> Lookup(p, name).None?
  {
    var p1 := AppendIf([], c1, n1, v1);
    var p2 := AppendIf(p1, c2, n2, v2);
    var p3 := AppendIf(p2, c3, n3, v3);
    var p4 := AppendIf(p3, c4, n4, v4);
    forall name
      ensures Lookup(p4, name) ==
              if c1 && name == n1 then Some(v1) else if c2 && name == n2 then Some(v2)
              else if c3 && name == n3 then Some(v3) else if c4 && name == n4 then Some(v4) else None
    {
      LookupAppendIf([], c1, n1, v1, name);
      LookupAppendIf(p1, c2, n2, v2, name);
      LookupAppendIf(p2, c3, n3, v3, name);
      LookupAppendIf(p3, c4, n4, v4, name);
    }
  }

  /** `params.toString()`. */
  function Serialize(p: Params): (q: string)
    ensures q == "" <==> p == []
  {
    if p == [] then ""
    else if |p| == 1 then p[0].0 + "=" + p[0].1
    else p[0].0 + "=" + p[0].1 + "&" + Serialize(p[1..])
  }

  /** `query ? path + '?' + query : path`. */
  function WithQuery(path: string, p: Params): (url: string)
  {
    var q := Serialize(p);
    if q != "" then path + "?" + q else path
  }

  /** A path without `?` gets one exactly when there are parameters, and the path is
      always the start of the URL. */
  lemma WithQueryMark(path: string, p: Params)
    requires '?' !in path
    ensures '?' in WithQuery(path, p) <==> p != []
    ensures p == [] ==> WithQuery(path, p) == path
    ensures p != [] ==> WithQuery(path, p) == path + "?" + Serialize(p)
  {
    var url := WithQuery(path, p);
    if p != [] {
      assert url[|path|] == '?';
    } else {
      assert url == path;
    }
  }
}
