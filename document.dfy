/**
 * The parsed page as the extractor sees it: the elements in document order,
 * each with its tag name, its attributes, its `get_text()` and its `.string`.
 * Finding the first element that matches a selector is the parser's `find`,
 * `select_one` and, filtered, `find_all`.
 */
module Document {
  import opened Wrappers

  datatype Element = Element(
    tag: string,
    attrs: map<string, string>,
    text: string,               // get_text(): all the text inside the element
    soleString: Option<string>  // .string: the single text child, None when there is none
  )

  /** `tag.get(name)`. */
  function Attr(e: Element, name: string): Option<string>
  {
    if name in e.attrs then Some(e.attrs[name]) else None
  }

  /** `tag.get(name, default)`. */
  function AttrOr(e: Element, name: string, default: string): string
  {
    if name in e.attrs then e.attrs[name] else default
  }

  /** `find(tag)` or `find(tag, attrs={name: value})`; also `select_one('tag[name="value"]')`. */
  datatype Selector = ByTag(tag: string) | ByAttr(tag: string, name: string, value: string)

  predicate Matches(e: Element, sel: Selector)
  {
    match sel
    case ByTag(t) => e.tag == t
    case ByAttr(t, name, value) => e.tag == t && Attr(e, name) == Some(value)
  }

  /** `i` is the position of the first element matching `sel`. */
  predicate FirstMatchAt(doc: seq<Element>, sel: Selector, i: int)
  {
    && 0 <= i < |doc|
    && Matches(doc[i], sel)
    && forall j :: 0 <= j < i ==> !Matches(doc[j], sel)
  }

  function FindFrom(doc: seq<Element>, sel: Selector, k: nat): (r: Option<nat>)
    requires k <= |doc|
    ensures r.Some? ==> k <= r.value < |doc|
    decreases |doc| - k
  {
    if k == |doc| then None
    else if Matches(doc[k], sel) then Some(k)
    else FindFrom(doc, sel, k + 1)
  }

  /** `FindFrom` returns the first match at or after `k`. */
  lemma {:induction false} FindFromFirst(doc: seq<Element>, sel: Selector, k: nat)
    requires k <= |doc|
    ensures var r := FindFrom(doc, sel, k);
            && (r.Some? ==> k <= r.value < |doc| && Matches(doc[r.value], sel))
            && (r.Some? ==> forall j :: k <= j < r.value ==> !Matches(doc[j], sel))
            && (r.None? ==> forall j :: k <= j < |doc| ==> !Matches(doc[j], sel))
    decreases |doc| - k
  {
    if k < |doc| && !Matches(doc[k], sel) {
      FindFromFirst(doc, sel, k + 1);
    }
  }

  /** The first element matching `sel`, or None when no element does. */
  function Find(doc: seq<Element>, sel: Selector): Option<Element>
  {
    match FindFrom(doc, sel, 0)
    case Some(i) => Some(doc[i])
    case None => None
  }

  /** `Find` returns the first matching element; None means that nothing matches. */
  lemma FindFirst(doc: seq<Element>, sel: Selector)
    ensures Find(doc, sel).None? <==> forall j :: 0 <= j < |doc| ==> !Matches(doc[j], sel)
    ensures Find(doc, sel).Some? ==> exists i :: FirstMatchAt(doc, sel, i) && Find(doc, sel).value == doc[i]
  {
    FindFromFirst(doc, sel, 0);
    var r := FindFrom(doc, sel, 0);
    if r.Some? {
      assert FirstMatchAt(doc, sel, r.value);
    }
  }

  /** The element at the first matching position is what `Find` returns. */
  lemma FindAt(doc: seq<Element>, sel: Selector, i: int)
    requires FirstMatchAt(doc, sel, i)
    ensures Find(doc, sel) == Some(doc[i])
  {
    FindFirst(doc, sel);
    var j :| FirstMatchAt(doc, sel, j) && Find(doc, sel).value == doc[j];
    assert !(j < i) && !(i < j);
  }
}
