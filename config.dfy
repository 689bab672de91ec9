/**
 * The YAML configuration: a nested lookup along a key path, where a missing
 * key reads as an empty mapping and a falsy result falls back to a default.
 */
module Config {
  import opened Wrappers
  import opened OrderedDict
  import opened Json

  /** `r = r.get(item, {})` for each item of the path in turn. */
  function Walk(r: Json, items: seq<string>): Result<Json>
    decreases |items|
  {
    if items == [] then Ok(r)
    else match DictGet(r, items[0], JObj([]))
      case Err(e) => Err(e)
      case Ok(next) => Walk(next, items[1..])
  }

  /** The value stored at the key path, when every key on it is present. */
  function Lookup(doc: Json, items: seq<string>): Option<Json>
    decreases |items|
  {
    if items == [] then Some(doc)
    else if !doc.JObj? then None
    else match Get(doc.members, items[0])
      case None => None
      case Some(next) => Lookup(next, items[1..])
  }

  /**
   * Config.get(*items, required=required, default=dflt) on the document
   * doc; Python's None is JNull.
   */
  method GetValue(doc: Json, items: seq<string>, required: bool, dflt: Json) returns (r: Result<Json>)
    ensures Walk(doc, items).Err? ==> r == Err(AttributeError)
    ensures Walk(doc, items).Ok? && Truthy(Walk(doc, items).value) ==> r == Ok(Walk(doc, items).value)
    ensures Walk(doc, items).Ok? && !Truthy(Walk(doc, items).value) ==>
              r == if required then Err(KeyError) else Ok(dflt)
  {
    var cur := doc;
    var i := 0;
    while i < |items|
      invariant 0 <= i <= |items|
      invariant Walk(doc, items) == Walk(cur, items[i..])
    {
      assert items[i..][1..] == items[i + 1..];
      var next := DictGet(cur, items[i], JObj([]));
      if next.Err? {
        return Err(AttributeError);
      }
      cur := next.value;
      i := i + 1;
    }
    if Truthy(cur) {
      r := Ok(cur);
    } else if !required {
      r := Ok(dflt);
    } else {
      r := Err(KeyError);
    }
  }

  /** A value present at the key path is what the walk reaches. */
  lemma {:induction false} WalkFindsStored(doc: Json, items: seq<string>)
    requires Lookup(doc, items).Some?
    ensures Walk(doc, items) == Ok(Lookup(doc, items).value)
    decreases |items|
  {
    if items != [] {
      WalkFindsStored(Get(doc.members, items[0]).value, items[1..]);
    }
  }

  /**
   * A key missing at any level makes the walk reach an empty mapping, unless
   * it meets a value that is not a mapping on the way.
   */
  lemma {:induction false} WalkMissing(doc: Json, items: seq<string>)
    requires Lookup(doc, items).None?
    ensures Walk(doc, items).Ok? ==> Walk(doc, items).value == JObj([])
    decreases |items|
  {
    if doc.JObj? {
      match Get(doc.members, items[0])
      case None => WalkEmpty(items[1..]);
      case Some(next) => WalkMissing(next, items[1..]);
    }
  }

  lemma {:induction false} WalkEmpty(items: seq<string>)
    ensures Walk(JObj([]), items) == Ok(JObj([]))
    decreases |items|
  {
    if items != [] { WalkEmpty(items[1..]); }
  }

  /** Config.get returns the stored value when it is truthy. */
  lemma TruthyStored(doc: Json, items: seq<string>, required: bool, dflt: Json, v: Json)
    requires Lookup(doc, items) == Some(v) && Truthy(v)
    ensures Walk(doc, items) == Ok(v)
  {
    WalkFindsStored(doc, items);
  }

  /**
   * A falsy stored value and a missing key read alike: both reach a falsy
   * walk result, so Config.get gives the default, or KeyError when the path
   * is required.
   */
  lemma FalsyLikeMissing(doc: Json, items: seq<string>)
    requires Lookup(doc, items).None? || !Truthy(Lookup(doc, items).value)
    ensures Walk(doc, items).Ok? ==> !Truthy(Walk(doc, items).value)
  {
    if Lookup(doc, items).None? {
      WalkMissing(doc, items);
    } else {
      WalkFindsStored(doc, items);
    }
  }

}
