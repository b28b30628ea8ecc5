/**
 * ensureUnderline: make sure a category bar holds an underline element whose
 * child is a thumb element, creating whichever is missing and reusing whatever
 * is already there. Elements are objects; a bar's and an underline's children
 * are the sequences `appendChild` extends.
 */
module ChipUnderline {

  const UnderlineClass: string := "chip-underline"
  const ThumbClass: string := "thumb"

  class Element {
    const className: string
    var children: seq<Element>

    /** `document.createElement('div')` with its class set. */
    constructor (cls: string)
      ensures className == cls && children == []
    {
      className := cls;
      children := [];
    }
  }

  /**
   * `querySelector('.' + cls)` over a list of children: the index of the first
   * one carrying `cls`, or `|children|` when none does.
   */
  function FirstWithClass(children: seq<Element>, cls: string): (i: nat)
    ensures i <= |children|
    ensures i < |children| ==> children[i].className == cls
    ensures forall j :: 0 <= j < i ==> children[j].className != cls
  {
    if |children| == 0 then 0
    else if children[0].className == cls then 0
    else 1 + FirstWithClass(children[1..], cls)
  }

  /** The element `querySelector` finds among `children`, and that it finds one. */
  predicate Finds(children: seq<Element>, cls: string, e: Element) {
    FirstWithClass(children, cls) < |children| && children[FirstWithClass(children, cls)] == e
  }

  /** A list with no match, extended by one carrying the class, finds that one. */
  lemma FindsAppended(children: seq<Element>, cls: string, e: Element)
    requires FirstWithClass(children, cls) == |children|
    requires e.className == cls
    ensures Finds(children + [e], cls, e)
  {
    assert (children + [e])[|children|] == e;
    assert forall j :: 0 <= j < |children| ==> (children + [e])[j] == children[j];
  }

  /**
   * ensureUnderline(bar). Afterwards the bar's underline query finds the returned
   * underline and the underline's thumb query finds the returned thumb. An
   * existing underline and an existing thumb are reused as they are; a missing
   * one is created fresh and appended.
   */
  method EnsureUnderline(bar: Element) returns (underline: Element, thumb: Element)
    requires bar !in bar.children
    modifies bar, bar.children
    ensures Finds(bar.children, UnderlineClass, underline) && underline.className == UnderlineClass
    ensures Finds(underline.children, ThumbClass, thumb) && thumb.className == ThumbClass
    ensures Finds(old(bar.children), UnderlineClass, underline) ==> bar.children == old(bar.children)
    ensures FirstWithClass(old(bar.children), UnderlineClass) < |old(bar.children)| ==>
      Finds(old(bar.children), UnderlineClass, underline)
    ensures FirstWithClass(old(bar.children), UnderlineClass) == |old(bar.children)| ==>
      fresh(underline) && fresh(thumb) &&
      bar.children == old(bar.children) + [underline] && underline.children == [thumb]
    ensures !fresh(underline) && Finds(old(underline.children), ThumbClass, thumb) ==>
      underline.children == old(underline.children)
    ensures !fresh(underline) && FirstWithClass(old(underline.children), ThumbClass) < |old(underline.children)| ==>
      Finds(old(underline.children), ThumbClass, thumb)
    ensures !fresh(underline) && FirstWithClass(old(underline.children), ThumbClass) == |old(underline.children)| ==>
      fresh(thumb) && underline.children == old(underline.children) + [thumb]
    ensures forall c :: c in old(bar.children) && c != underline ==> c.children == old(c.children)
  {
    var i := FirstWithClass(bar.children, UnderlineClass);
    if i == |bar.children| {
      underline := new Element(UnderlineClass);
      var t := new Element(ThumbClass);
      underline.children := underline.children + [t];
      FindsAppended(bar.children, UnderlineClass, underline);
      bar.children := bar.children + [underline];
    } else {
      underline := bar.children[i];
    }
    var j := FirstWithClass(underline.children, ThumbClass);
    if j == |underline.children| {
      thumb := new Element(ThumbClass);
      FindsAppended(underline.children, ThumbClass, thumb);
      underline.children := underline.children + [thumb];
    } else {
      thumb := underline.children[j];
    }
  }

  /**
   * Calling ensureUnderline a second time creates nothing, changes no children
   * and returns the pair the first call returned.
   */
  method EnsureUnderlineTwice(bar: Element) returns (u1: Element, t1: Element, u2: Element, t2: Element)
    requires bar !in bar.children
    modifies bar, bar.children
    ensures u1 == u2 && t1 == t2
    ensures Finds(bar.children, UnderlineClass, u1) && Finds(u1.children, ThumbClass, t1)
    ensures FirstWithClass(old(bar.children), UnderlineClass) < |old(bar.children)| ==>
      bar.children == old(bar.children) && Finds(old(bar.children), UnderlineClass, u1)
    ensures FirstWithClass(old(bar.children), UnderlineClass) == |old(bar.children)| ==>
      fresh(u1) && fresh(t1) && bar.children == old(bar.children) + [u1] && u1.children == [t1]
    ensures !fresh(u1) && FirstWithClass(old(u1.children), ThumbClass) < |old(u1.children)| ==>
      u1.children == old(u1.children) && Finds(old(u1.children), ThumbClass, t1)
    ensures !fresh(u1) && FirstWithClass(old(u1.children), ThumbClass) == |old(u1.children)| ==>
      fresh(t1) && u1.children == old(u1.children) + [t1]
    ensures forall c :: c in old(bar.children) && c != u1 ==> c.children == old(c.children)
  {
    u1, t1 := EnsureUnderline(bar);
    u2, t2 := EnsureUnderline(bar);
  }
}
