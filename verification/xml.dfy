/** An already-parsed XML document as an immutable element tree, with the
    three ElementTree queries the scanner uses: `find`, `findall` and `get`.
    `find(tag)` and `findall(tag)` look at direct children only. */
module Xml {
  import opened Wrappers

  datatype Elem = Elem(tag: string, attrs: map<string, string>, children: seq<Elem>)

  /** `elem.get(key, default)`. */
  function Get(e: Elem, key: string, default: string): string {
    if key in e.attrs then e.attrs[key] else default
  }

  /** `elem.get(key) == value`; an absent attribute (`None`) equals no string. */
  predicate AttrIs(e: Elem, key: string, value: string) {
    key in e.attrs && e.attrs[key] == value
  }

  /** `findall(tag)` over a list of children: the ones with that tag, in order. */
  function FindAll(cs: seq<Elem>, tag: string): (r: seq<Elem>)
    ensures |r| <= |cs|
    ensures forall k :: 0 <= k < |r| ==> r[k].tag == tag
    ensures forall e :: e in r <==> e in cs && e.tag == tag
  {
    if |cs| == 0 then []
    else if cs[0].tag == tag then [cs[0]] + FindAll(cs[1..], tag)
    else FindAll(cs[1..], tag)
  }

  /** `find(tag)` over a list of children: the first one with that tag. */
  function Find(cs: seq<Elem>, tag: string): (r: Option<Elem>)
    ensures r.None? <==> forall k :: 0 <= k < |cs| ==> cs[k].tag != tag
    ensures r.Some? ==> r.value in cs && r.value.tag == tag
  {
    if |cs| == 0 then None
    else if cs[0].tag == tag then Some(cs[0])
    else Find(cs[1..], tag)
  }

  /** `find` is the head of `findall`. */
  lemma {:induction false} FindIsFirstOfFindAll(cs: seq<Elem>, tag: string)
    ensures Find(cs, tag) == if FindAll(cs, tag) == [] then None else Some(FindAll(cs, tag)[0])
  {
    if |cs| > 0 && cs[0].tag != tag {
      FindIsFirstOfFindAll(cs[1..], tag);
    }
  }

  /** `findall` keeps document order: it distributes over concatenation. */
  lemma {:induction false} FindAllAppend(a: seq<Elem>, b: seq<Elem>, tag: string)
    ensures FindAll(a + b, tag) == FindAll(a, tag) + FindAll(b, tag)
  {
    if |a| > 0 {
      assert (a + b)[0] == a[0];
      assert (a + b)[1..] == a[1..] + b;
      FindAllAppend(a[1..], b, tag);
    } else {
      assert a + b == b;
    }
  }

  lemma FindAppend(a: seq<Elem>, b: seq<Elem>, tag: string)
    ensures Find(a + b, tag) == if Find(a, tag).Some? then Find(a, tag) else Find(b, tag)
  {
    FindIsFirstOfFindAll(a + b, tag);
    FindIsFirstOfFindAll(a, tag);
    FindIsFirstOfFindAll(b, tag);
    FindAllAppend(a, b, tag);
  }

  lemma FindAllOnly(cs: seq<Elem>, tag: string)
    requires forall k :: 0 <= k < |cs| ==> cs[k].tag == tag
    ensures FindAll(cs, tag) == cs
  {
  }

  lemma FindAllNone(cs: seq<Elem>, tag: string)
    requires forall k :: 0 <= k < |cs| ==> cs[k].tag != tag
    ensures FindAll(cs, tag) == []
  {
  }
}
