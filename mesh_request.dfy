/** The request the mesh client sends for a channel, as a JSON tree: the attribute's name,
    the filters on other attributes and the bounding box. */
module MeshRequest {
  import opened Wrappers

  datatype Json =
    | JString(str: string)
    | JNumber(num: real)
    | JArray(items: seq<Json>)
    | JObject(members: map<string, Json>)

  /** The admitted value range of a filtered attribute. */
  datatype FilterRange = FilterRange(minValue: real, maxValue: real)

  /** Strict lexicographic order on strings by character code: the order in which an ordered
      map keyed by strings is traversed. The filters are assumed to be kept in such a map. */
  predicate Below(a: string, b: string)
  {
    if a == [] then b != []
    else if b == [] then false
    else if a[0] == b[0] then Below(a[1..], b[1..])
    else a[0] < b[0]
  }

  lemma {:induction false} BelowAsymmetric(a: string, b: string)
    requires Below(a, b)
    ensures !Below(b, a)
  {
    if a != [] && b != [] && a[0] == b[0] {
      BelowAsymmetric(a[1..], b[1..]);
    }
  }

  lemma {:induction false} BelowTransitive(a: string, b: string, c: string)
    requires Below(a, b) && Below(b, c)
    ensures Below(a, c)
  {
    if a != [] && b != [] && c != [] && a[0] == b[0] && b[0] == c[0] {
      BelowTransitive(a[1..], b[1..], c[1..]);
    }
  }

  lemma {:induction false} BelowTotal(a: string, b: string)
    requires a != b
    ensures Below(a, b) || Below(b, a)
  {
    if a != [] && b != [] && a[0] == b[0] {
      assert a == [a[0]] + a[1..] && b == [b[0]] + b[1..];
      BelowTotal(a[1..], b[1..]);
    }
  }

  predicate IsLeast(m: string, keys: set<string>)
  {
    m in keys && forall k | k in keys && k != m :: Below(m, k)
  }

  lemma {:induction false} LeastExists(keys: set<string>)
    requires keys != {}
    ensures exists m :: IsLeast(m, keys)
    decreases keys
  {
    var x :| x in keys;
    if keys == {x} {
      assert IsLeast(x, keys);
    } else {
      LeastExists(keys - {x});
      var m :| IsLeast(m, keys - {x});
      if Below(m, x) {
        assert IsLeast(m, keys);
      } else {
        BelowTotal(m, x);
        forall k | k in keys && k != x ensures Below(x, k) {
          if k != m {
            BelowTransitive(x, m, k);
          }
        }
        assert IsLeast(x, keys);
      }
    }
  }

  lemma LeastUnique(keys: set<string>)
    ensures forall m, m' | IsLeast(m, keys) && IsLeast(m', keys) :: m == m'
  {
    forall m, m' | IsLeast(m, keys) && IsLeast(m', keys) ensures m == m' {
      if m != m' {
        BelowAsymmetric(m, m');
      }
    }
  }

  predicate Increasing(names: seq<string>)
  {
    forall i, j | 0 <= i < j < |names| :: Below(names[i], names[j])
  }

  /** The keys of an ordered string-keyed map in traversal order. */
  function SortedKeys(keys: set<string>): (names: seq<string>)
    ensures Increasing(names)
    ensures |names| == |keys|
    ensures forall n :: n in names <==> n in keys
    decreases keys
  {
    if keys == {} then []
    else
      LeastExists(keys);
      LeastUnique(keys);
      var m :| m in keys && IsLeast(m, keys);
      [m] + SortedKeys(keys - {m})
  }

  /** One entry of the request's filter array. */
  function FilterEntry(name: string, range: FilterRange): Json
  {
    JObject(map["attribute_name" := JString(name),
                "min_val" := JNumber(range.minValue),
                "max_val" := JNumber(range.maxValue)])
  }

  function FilterEntries(names: seq<string>, filters: map<string, FilterRange>): (items: seq<Json>)
    requires forall n | n in names :: n in filters
  {
    seq(|names|, i requires 0 <= i < |names| => FilterEntry(names[i], filters[names[i]]))
  }

  /** The member names of the bounding box, in the order of its six numbers. */
  const BoxKeys: seq<string> := ["x_min", "y_min", "z_min", "x_max", "y_max", "z_max"]

  function BoundingBoxJson(box: seq<real>): Json
    requires |box| == 6
  {
    JObject(map[BoxKeys[0] := JNumber(box[0]), BoxKeys[1] := JNumber(box[1]), BoxKeys[2] := JNumber(box[2]),
                BoxKeys[3] := JNumber(box[3]), BoxKeys[4] := JNumber(box[4]), BoxKeys[5] := JNumber(box[5])])
  }

  /** The request for attribute `attributeName`, given the bounding box as six numbers
      (minimum x, y, z, then maximum x, y, z) and the filters by attribute name. The filter
      array is present only when there is a filter, and lists the filters by ascending name,
      as an ordered filter map is traversed. */
  function Request(attributeName: string, box: seq<real>, filters: map<string, FilterRange>): Json
    requires |box| == 6
  {
    JObject(map["boundingbox" := BoundingBoxJson(box), "attribute" := JObject(AttributeMembers(attributeName, filters))])
  }

  function AttributeMembers(attributeName: string, filters: map<string, FilterRange>): map<string, Json>
  {
    var named := map["name" := JString(attributeName)];
    if |filters| > 0 then named["filters" := JArray(FilterEntries(SortedKeys(filters.Keys), filters))]
    else named
  }

  // What a server reads back from a request.

  function Member(j: Json, key: string): Option<Json>
  {
    if j.JObject? && key in j.members then Some(j.members[key]) else None
  }

  function NumberMember(j: Json, key: string): Option<real>
  {
    var m := Member(j, key);
    if m.Some? && m.value.JNumber? then Some(m.value.num) else None
  }

  /** The attribute object of a request. */
  function RequestedAttribute(request: Json): Option<Json>
  {
    var a := Member(request, "attribute");
    if a.Some? && a.value.JObject? then a else None
  }

  function RequestedName(request: Json): Option<string>
  {
    var a := RequestedAttribute(request);
    if a.None? then None
    else
      var n := Member(a.value, "name");
      if n.Some? && n.value.JString? then Some(n.value.str) else None
  }

  /** The six bounding-box numbers of a request, minimum corner first. */
  function RequestedBox(request: Json): Option<seq<real>>
  {
    var b := Member(request, "boundingbox");
    if b.None? then None
    else
      if forall i | 0 <= i < 6 :: NumberMember(b.value, BoxKeys[i]).Some? then
        Some(seq(6, i requires 0 <= i < 6 => NumberMember(b.value, BoxKeys[i]).value))
      else None
  }

  function FilterOfEntry(entry: Json): Option<(string, FilterRange)>
  {
    var n := Member(entry, "attribute_name");
    var lo := NumberMember(entry, "min_val");
    var hi := NumberMember(entry, "max_val");
    if n.Some? && n.value.JString? && lo.Some? && hi.Some? then
      Some((n.value.str, FilterRange(lo.value, hi.value)))
    else None
  }

  /** The filters listed by an array of entries; a later entry for a name replaces an
      earlier one, and malformed entries are skipped. */
  function FiltersOfEntries(items: seq<Json>): map<string, FilterRange>
  {
    if items == [] then map[]
    else
      var earlier := FiltersOfEntries(items[..|items| - 1]);
      var f := FilterOfEntry(items[|items| - 1]);
      if f.Some? then earlier[f.value.0 := f.value.1] else earlier
  }

  /** The filters of a request: none when its attribute has no filter array. */
  function RequestedFilters(request: Json): map<string, FilterRange>
  {
    var a := RequestedAttribute(request);
    if a.Some? && "filters" in a.value.members && a.value.members["filters"].JArray? then
      FiltersOfEntries(a.value.members["filters"].items)
    else map[]
  }

  lemma {:induction false} FiltersOfFilterEntries(names: seq<string>, filters: map<string, FilterRange>)
    requires forall n | n in names :: n in filters
    ensures FiltersOfEntries(FilterEntries(names, filters)) == map n | n in names :: filters[n]
  {
    if names != [] {
      var init := names[..|names| - 1];
      var last := names[|names| - 1];
      assert FilterEntries(names, filters)[..|names| - 1] == FilterEntries(init, filters);
      FiltersOfFilterEntries(init, filters);
      assert FilterOfEntry(FilterEntry(last, filters[last])) == Some((last, filters[last]));
      assert forall n :: n in names <==> n in init || n == last;
    }
  }

  lemma BoundingBoxRoundTrip(box: seq<real>)
    requires |box| == 6
    ensures forall i | 0 <= i < 6 :: NumberMember(BoundingBoxJson(box), BoxKeys[i]) == Some(box[i])
  {
  }

  /** The request names the attribute it was built for. */
  lemma RequestCarriesName(attributeName: string, box: seq<real>, filters: map<string, FilterRange>)
    requires |box| == 6
    ensures RequestedName(Request(attributeName, box, filters)) == Some(attributeName)
  {
  }

  /** The request carries the bounding box it was built from, minimum corner first. */
  lemma RequestCarriesBox(attributeName: string, box: seq<real>, filters: map<string, FilterRange>)
    requires |box| == 6
    ensures RequestedBox(Request(attributeName, box, filters)) == Some(box)
  {
    BoundingBoxRoundTrip(box);
    var request := Request(attributeName, box, filters);
    assert Member(request, "boundingbox") == Some(BoundingBoxJson(box));
    var r := RequestedBox(request);
    assert r.Some? && |r.value| == 6;
    assert forall i | 0 <= i < 6 :: r.value[i] == box[i];
    assert r.value == box;
  }

  lemma FilterOfFilterEntry(name: string, range: FilterRange)
    ensures FilterOfEntry(FilterEntry(name, range)) == Some((name, range))
  {
  }

  /** The entries list the filters in the order of the names they are built from. */
  lemma FilterEntriesInOrder(names: seq<string>, filters: map<string, FilterRange>)
    requires forall n | n in names :: n in filters
    requires Increasing(names)
    ensures var items := FilterEntries(names, filters);
            forall i, j | 0 <= i < j < |items| ::
              Below(FilterOfEntry(items[i]).value.0, FilterOfEntry(items[j]).value.0)
  {
  }

  /** The attribute object of the request: the filter array is present if and only if there
      is a filter. */
  lemma RequestAttribute(attributeName: string, box: seq<real>, filters: map<string, FilterRange>)
    requires |box| == 6
    ensures RequestedAttribute(Request(attributeName, box, filters)) == Some(JObject(AttributeMembers(attributeName, filters)))
    ensures "filters" in AttributeMembers(attributeName, filters) <==> |filters| > 0
  {
  }

  /** The request carries exactly the filters it was built from. */
  lemma RequestCarriesFilters(attributeName: string, box: seq<real>, filters: map<string, FilterRange>)
    requires |box| == 6
    ensures RequestedFilters(Request(attributeName, box, filters)) == filters
  {
    RequestAttribute(attributeName, box, filters);
    if |filters| > 0 {
      var names := SortedKeys(filters.Keys);
      var items := FilterEntries(names, filters);
      assert AttributeMembers(attributeName, filters)["filters"] == JArray(items);
      FiltersOfFilterEntries(names, filters);
      assert (map n | n in names :: filters[n]) == filters;
    } else {
      assert filters == map[];
    }
  }

  /** The filter array of a request holds one entry per filter and lists them by strictly
      ascending name, as an ordered filter map is traversed. */
  lemma RequestFilterArray(attributeName: string, filters: map<string, FilterRange>)
    requires |filters| > 0
    ensures var a := AttributeMembers(attributeName, filters);
            && "filters" in a && a["filters"].JArray?
            && |a["filters"].items| == |filters|
            && forall i, j | 0 <= i < j < |filters| ::
                 Below(FilterOfEntry(a["filters"].items[i]).value.0,
                       FilterOfEntry(a["filters"].items[j]).value.0)
  {
    var names := SortedKeys(filters.Keys);
    var items := FilterEntries(names, filters);
    assert AttributeMembers(attributeName, filters)["filters"] == JArray(items);
    FilterEntriesInOrder(names, filters);
  }
}
