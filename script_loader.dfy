/**
 * The SDK script loader (`initPlayer(d, s, id)`): unless the document
 * already holds an element with the given id, a new `<s>` element with that
 * id, the SDK bundle URL and the async flag is inserted immediately before
 * the first existing `<s>` element.  The document is modelled as its
 * elements in tree order.
 */
module ScriptLoader {
  import opened Wrappers

  /** One DOM element as far as the loader sees it; an empty id means the element has no id. */
  datatype Element = Element(tag: string, id: string, src: string, async: bool)

  const BundleSrc: string := "https://vgc.no/player/player.next.min.bundled-latest.js"

  /** The document whose element list `insertBefore` changes in place. */
  class Document {
    var elements: seq<Element>

    constructor (elements: seq<Element>)
      ensures this.elements == elements
    {
      this.elements := elements;
    }
  }

  /**
   * `d.getElementById(id)`: the position of the first element, in tree
   * order, carrying this id; the empty string is never an element's id.
   */
  function GetElementById(elements: seq<Element>, id: string): (r: Option<nat>)
    ensures r.Some? ==> r.value < |elements| && elements[r.value].id == id && id != ""
    ensures r.Some? ==> forall j :: 0 <= j < r.value ==> elements[j].id != id
    ensures r.None? ==> id == "" || forall j :: 0 <= j < |elements| ==> elements[j].id != id
  {
    if id == "" || elements == [] then None
    else if elements[0].id == id then Some(0)
    else match GetElementById(elements[1..], id)
      case None => None
      case Some(i) => Some(i + 1)
  }

  /** `d.getElementsByTagName(s)[0]`: the position of the first element with tag `s`, if there is one. */
  function FirstByTag(elements: seq<Element>, tag: string): (r: Option<nat>)
    ensures r.Some? ==> r.value < |elements| && elements[r.value].tag == tag
    ensures r.Some? ==> forall j :: 0 <= j < r.value ==> elements[j].tag != tag
    ensures r.None? ==> forall j :: 0 <= j < |elements| ==> elements[j].tag != tag
  {
    if elements == [] then None
    else if elements[0].tag == tag then Some(0)
    else match FirstByTag(elements[1..], tag)
      case None => None
      case Some(i) => Some(i + 1)
  }

  /** `d.createElement(s)`: a fresh element with that tag and no attributes. */
  function CreateElement(tag: string): (e: Element)
    ensures e.tag == tag && e.id == "" && e.src == "" && !e.async
  {
    Element(tag, "", "", false)
  }

  /**
   * The script element the loader inserts: a created `<s>` element given the
   * id, the SDK bundle URL and the async flag; a non-empty id makes it found
   * by `getElementById`.
   */
  function SdkScript(tag: string, id: string): (e: Element)
    ensures e.tag == tag && e.id == id && e.src == BundleSrc && e.async
    ensures id != "" ==> GetElementById([e], id) == Some(0)
  {
    CreateElement(tag).(id := id, src := BundleSrc, async := true)
  }

  /**
   * What a call does: nothing when the id is already present; a TypeError
   * at `fjs.parentNode` when there is no `<s>` element to insert before;
   * otherwise an insertion at the position of the first `<s>` element.
   */
  datatype LoadOutcome = AlreadyPresent | MissingAnchor | Inserted(at: nat)

  function LoadPlan(elements: seq<Element>, tag: string, id: string): (r: LoadOutcome)
    ensures r.Inserted? ==> r.at < |elements| && elements[r.at].tag == tag
  {
    if GetElementById(elements, id).Some? then AlreadyPresent
    else match FirstByTag(elements, tag)
      case None => MissingAnchor
      case Some(i) => Inserted(i)
  }

  /** The element list after a call. */
  function AfterLoad(elements: seq<Element>, tag: string, id: string): (r: seq<Element>)
    ensures !LoadPlan(elements, tag, id).Inserted? ==> r == elements
    ensures LoadPlan(elements, tag, id).Inserted? ==>
      var i := LoadPlan(elements, tag, id).at;
      |r| == |elements| + 1 && r[i] == SdkScript(tag, id) && r[..i] == elements[..i] && r[i + 1..] == elements[i..]
  {
    match LoadPlan(elements, tag, id)
    case Inserted(i) => elements[..i] + [SdkScript(tag, id)] + elements[i..]
    case _ => elements
  }

  /** `initPlayer(d, s, id)`, modelled step by step; the outcome says which path was taken. */
  method InitPlayer(d: Document, s: string, id: string) returns (outcome: LoadOutcome)
    modifies d
    ensures outcome == LoadPlan(old(d.elements), s, id)
    ensures d.elements == AfterLoad(old(d.elements), s, id)
  {
    var fjs := FirstByTag(d.elements, s);
    if GetElementById(d.elements, id).Some? {
      return AlreadyPresent;
    }
    var js := CreateElement(s);
    js := js.(id := id);
    js := js.(src := BundleSrc);
    js := js.(async := true);
    if fjs.None? {
      return MissingAnchor;
    }
    var i := fjs.value;
    d.elements := d.elements[..i] + [js] + d.elements[i..];
    return Inserted(i);
  }

  /** How many elements carry the id `id`. */
  function CountWithId(elements: seq<Element>, id: string): nat {
    if elements == [] then 0
    else (if elements[0].id == id then 1 else 0) + CountWithId(elements[1..], id)
  }

  lemma {:induction false} CountWithIdAppend(a: seq<Element>, b: seq<Element>, id: string)
    ensures CountWithId(a + b, id) == CountWithId(a, id) + CountWithId(b, id)
  {
    if a == [] {
      assert a + b == b;
    } else {
      assert (a + b)[1..] == a[1..] + b;
      CountWithIdAppend(a[1..], b, id);
    }
  }

  lemma {:induction false} CountWithIdZero(elements: seq<Element>, id: string)
    requires forall j :: 0 <= j < |elements| ==> elements[j].id != id
    ensures CountWithId(elements, id) == 0
  {
    if elements != [] {
      CountWithIdZero(elements[1..], id);
    }
  }

  /** When an element with the id is already there, the document is left as it is. */
  lemma LoadWhenPresent(elements: seq<Element>, tag: string, id: string, j: nat)
    requires j < |elements| && elements[j].id == id && id != ""
    ensures LoadPlan(elements, tag, id) == AlreadyPresent
    ensures AfterLoad(elements, tag, id) == elements
  {
  }

  /** When there is no `<s>` element and no element with the id, the call fails before changing anything. */
  lemma LoadWithoutAnchor(elements: seq<Element>, tag: string, id: string)
    requires id == "" || forall j :: 0 <= j < |elements| ==> elements[j].id != id
    requires forall j :: 0 <= j < |elements| ==> elements[j].tag != tag
    ensures LoadPlan(elements, tag, id) == MissingAnchor
    ensures AfterLoad(elements, tag, id) == elements
  {
  }

  /**
   * When the id is absent and the first `<s>` element is at position `i`,
   * exactly one element is added: the SDK script, immediately before that
   * element; every other element keeps its order and its contents.
   */
  lemma LoadInsertsBeforeFirst(elements: seq<Element>, tag: string, id: string, i: nat)
    requires id == "" || forall j :: 0 <= j < |elements| ==> elements[j].id != id
    requires i < |elements| && elements[i].tag == tag
    requires forall j :: 0 <= j < i ==> elements[j].tag != tag
    ensures LoadPlan(elements, tag, id) == Inserted(i)
    ensures AfterLoad(elements, tag, id) == elements[..i] + [SdkScript(tag, id)] + elements[i..]
  {
  }

  /** A second call with the same (non-empty) id changes nothing. */
  lemma LoadIdempotent(elements: seq<Element>, tag: string, id: string)
    requires id != ""
    ensures AfterLoad(AfterLoad(elements, tag, id), tag, id) == AfterLoad(elements, tag, id)
  {
    var once := AfterLoad(elements, tag, id);
    if LoadPlan(elements, tag, id).Inserted? {
      var i := LoadPlan(elements, tag, id).at;
      assert once[i] == SdkScript(tag, id);
      LoadWhenPresent(once, tag, id, i);
    }
  }

  /** Loading into a document without the id leaves exactly one element carrying it. */
  lemma LoadLeavesOne(elements: seq<Element>, tag: string, id: string, k: nat)
    requires id != "" && forall j :: 0 <= j < |elements| ==> elements[j].id != id
    requires k < |elements| && elements[k].tag == tag
    ensures CountWithId(AfterLoad(elements, tag, id), id) == 1
    ensures CountWithId(AfterLoad(AfterLoad(elements, tag, id), tag, id), id) == 1
  {
    var i := FirstByTag(elements, tag).value;
    var before, after := elements[..i], elements[i..];
    assert elements == before + after;
    CountWithIdZero(before, id);
    CountWithIdZero(after, id);
    CountWithIdAppend(before, [SdkScript(tag, id)], id);
    CountWithIdAppend(before + [SdkScript(tag, id)], after, id);
    LoadIdempotent(elements, tag, id);
  }

  /** Without an id, the guard never fires: each call inserts another script. */
  lemma EmptyIdInsertsEachTime(elements: seq<Element>, tag: string, k: nat)
    requires k < |elements| && elements[k].tag == tag
    ensures |AfterLoad(AfterLoad(elements, tag, ""), tag, "")| == |elements| + 2
  {
    var once := AfterLoad(elements, tag, "");
    var i := FirstByTag(elements, tag).value;
    assert once[i] == SdkScript(tag, "");
    assert once[i].tag == tag;
  }
}
