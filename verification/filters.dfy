/** The filter language (src/types.ts:89-173): a simple filter `[op, field, values]`
    or a logical filter `[and|or|not, subfilters]`, nested to any depth. On the wire a
    filter is a JSON array whose first element, the tag, decides its form. */
module Filters {
  import opened Wrappers
  import opened Json
  import opened Types

  /** The field of a simple filter is any string and its value list may be empty:
      the TypeScript type constrains neither. */
  datatype Filter =
    | Simple(op: FilterOperator, field: string, values: seq<string>)
    | Logical(lop: LogicalOperator, subfilters: seq<Filter>)

  function EncodeStrings(ss: seq<string>): (js: seq<Json>)
    ensures |js| == |ss|
    ensures forall i :: 0 <= i < |ss| ==> js[i] == Str(ss[i])
  {
    if ss == [] then [] else [Str(ss[0])] + EncodeStrings(ss[1..])
  }

  /** The JSON array a filter is sent as. Its first element is a string tag, and the tag
      is a simple operator exactly when the filter is simple. */
  function EncodeFilter(f: Filter): (j: Json)
    ensures j.Arr? && |j.items| > 0 && j.items[0].Str?
    ensures f.Simple? <==> ParseFilterOperator(j.items[0].s).Some?
    ensures f.Logical? <==> ParseLogicalOperator(j.items[0].s).Some?
  {
    match f
    case Simple(op, field, values) =>
      Arr([Str(FilterOperatorName(op)), Str(field), Arr(EncodeStrings(values))])
    case Logical(lop, subs) =>
      Arr([Str(LogicalOperatorName(lop)), Arr(EncodeFilters(subs))])
  }

  /** A filter list is sent as the list of its filters' arrays, in the given order. */
  function EncodeFilters(fs: seq<Filter>): (js: seq<Json>)
    ensures |js| == |fs|
    ensures forall i :: 0 <= i < |fs| ==> js[i] == EncodeFilter(fs[i])
  {
    if fs == [] then [] else [EncodeFilter(fs[0])] + EncodeFilters(fs[1..])
  }

  function DecodeStrings(js: seq<Json>): (r: Option<seq<string>>)
    ensures r.Some? ==> |r.value| == |js|
  {
    if js == [] then Some([])
    else if !js[0].Str? then None
    else
      match DecodeStrings(js[1..])
      case None => None
      case Some(rest) => Some([js[0].s] + rest)
  }

  /** Reads a filter back by its tag: a simple tag expects a field and a list of strings,
      a logical tag a list of filters. Anything else is not a filter. */
  function DecodeFilter(j: Json): (r: Option<Filter>)
  {
    if !j.Arr? || |j.items| == 0 || !j.items[0].Str? then None
    else
      var tag := j.items[0].s;
      match ParseFilterOperator(tag)
      case Some(op) =>
        if |j.items| == 3 && j.items[1].Str? && j.items[2].Arr? then
          match DecodeStrings(j.items[2].items)
          case Some(values) => Some(Simple(op, j.items[1].s, values))
          case None => None
        else None
      case None =>
        match ParseLogicalOperator(tag)
        case Some(lop) =>
          if |j.items| == 2 && j.items[1].Arr? then
            match DecodeFilters(j.items[1].items)
            case Some(subs) => Some(Logical(lop, subs))
            case None => None
          else None
        case None => None
  }

  function DecodeFilters(js: seq<Json>): (r: Option<seq<Filter>>)
    ensures r.Some? ==> |r.value| == |js|
  {
    if js == [] then Some([])
    else
      match DecodeFilter(js[0])
      case None => None
      case Some(f) =>
        match DecodeFilters(js[1..])
        case None => None
        case Some(rest) => Some([f] + rest)
  }

  lemma {:induction false} StringsRoundTrip(ss: seq<string>)
    ensures DecodeStrings(EncodeStrings(ss)) == Some(ss)
  {
    if ss != [] {
      StringsRoundTrip(ss[1..]);
      assert EncodeStrings(ss)[1..] == EncodeStrings(ss[1..]);
      assert [ss[0]] + ss[1..] == ss;
    }
  }

  /** Decoding an encoded filter gives back the same filter: operator, field, values,
      nesting and the order of subfilters are all preserved. */
  lemma {:induction false} FilterRoundTrip(f: Filter)
    ensures DecodeFilter(EncodeFilter(f)) == Some(f)
    decreases f, 1
  {
    match f
    case Simple(op, field, values) =>
      StringsRoundTrip(values);
    case Logical(lop, subs) =>
      FiltersRoundTrip(subs);
  }

  lemma {:induction false} FiltersRoundTrip(fs: seq<Filter>)
    ensures DecodeFilters(EncodeFilters(fs)) == Some(fs)
    decreases fs, 0
  {
    if fs != [] {
      FilterRoundTrip(fs[0]);
      FiltersRoundTrip(fs[1..]);
      assert EncodeFilters(fs)[1..] == EncodeFilters(fs[1..]);
      assert [fs[0]] + fs[1..] == fs;
    }
  }

  lemma {:induction false} StringsCanonical(js: seq<Json>)
    ensures DecodeStrings(js).Some? ==> EncodeStrings(DecodeStrings(js).value) == js
  {
    if js != [] && js[0].Str? {
      StringsCanonical(js[1..]);
      if DecodeStrings(js).Some? {
        var ss := DecodeStrings(js).value;
        assert ss[1..] == DecodeStrings(js[1..]).value;
        assert EncodeStrings(ss) == [Str(ss[0])] + EncodeStrings(ss[1..]);
        assert js == [js[0]] + js[1..];
      }
    }
  }

  /** Every JSON value that reads as a filter is the encoding of that filter: the
      decoder accepts only the exact shapes the encoder produces. */
  lemma {:induction false} FilterCanonical(j: Json)
    ensures DecodeFilter(j).Some? ==> EncodeFilter(DecodeFilter(j).value) == j
    decreases j, 1
  {
    if j.Arr? && |j.items| > 0 && j.items[0].Str? {
      OperatorTagsExact(j.items[0].s);
      if |j.items| == 3 && j.items[2].Arr? {
        StringsCanonical(j.items[2].items);
      }
      if |j.items| == 2 && j.items[1].Arr? {
        FiltersCanonical(j.items[1].items);
      }
      if DecodeFilter(j).Some? {
        if |j.items| == 3 {
          assert j.items == [j.items[0], j.items[1], j.items[2]];
        } else {
          assert j.items == [j.items[0], j.items[1]];
        }
      }
    }
  }

  lemma {:induction false} FiltersCanonical(js: seq<Json>)
    ensures DecodeFilters(js).Some? ==> EncodeFilters(DecodeFilters(js).value) == js
    decreases js, 0
  {
    if js != [] {
      FilterCanonical(js[0]);
      FiltersCanonical(js[1..]);
      if DecodeFilters(js).Some? {
        var fs := DecodeFilters(js).value;
        assert fs[1..] == DecodeFilters(js[1..]).value;
        assert EncodeFilters(fs) == [EncodeFilter(fs[0])] + EncodeFilters(fs[1..]);
        assert js == [js[0]] + js[1..];
      }
    }
  }
}
