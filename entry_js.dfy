/**
 * The data-handling parts of the entry page script: the character offset of
 * a selection inside an entry, the selection shown in the popup, and the
 * attachment of streamed subsections to their sections.
 */
module EntryScript {
  import opened Wrappers

  // ---------------------------------------------------------------------
  // calculateGlobalOffset
  // ---------------------------------------------------------------------

  datatype NodeKind = Text | Element | Other

  /**
   * A DOM node. `id` stands for the node's identity (`===`), so ids are
   * taken to be distinct within a tree; `length` is a text node's length.
   */
  datatype Node = Node(id: nat, kind: NodeKind, length: nat, children: seq<Node>)

  /** The start of a DOM range: the node it starts in and the offset inside that node. */
  datatype Range = Range(startContainer: nat, startOffset: nat)

  /** What a walk has counted so far, and whether it reached the start container. */
  datatype Visit = Visit(total: nat, found: bool)

  /** The text a node itself holds. */
  function OwnText(n: Node): nat
  {
    if n.kind == Text then n.length else 0
  }

  /** A walk over `a` followed by a walk over `b`, which only runs if `a` did not stop. */
  function Then(a: Visit, b: Visit): Visit
  {
    if a.found then a else Visit(a.total + b.total, b.found)
  }

  /** The recursion of `iterateNodes`: stop at the container, count text nodes, visit the children in order. */
  function Walk(n: Node, target: nat): Visit
    decreases n
  {
    if n.id == target then Visit(0, true)
    else Then(Visit(OwnText(n), false), WalkAll(n.children, target))
  }

  /** The children loop of `iterateNodes`, which stops as soon as one child stops. */
  function WalkAll(ns: seq<Node>, target: nat): Visit
    decreases ns
  {
    if ns == [] then Visit(0, false)
    else Then(Walk(ns[0], target), WalkAll(ns[1..], target))
  }

  /** The nodes of a tree in pre-order (document order). */
  function Preorder(n: Node): seq<Node>
    decreases n
  {
    [n] + PreorderAll(n.children)
  }

  function PreorderAll(ns: seq<Node>): seq<Node>
    decreases ns
  {
    if ns == [] then [] else Preorder(ns[0]) + PreorderAll(ns[1..])
  }

  /** The text in `nodes` before the first node that is `target`, and whether there is one. */
  function TextBefore(nodes: seq<Node>, target: nat): Visit
  {
    if nodes == [] then Visit(0, false)
    else if nodes[0].id == target then Visit(0, true)
    else Then(Visit(OwnText(nodes[0]), false), TextBefore(nodes[1..], target))
  }

  /** All the text in `nodes`. */
  function TextSum(nodes: seq<Node>): nat
  {
    if nodes == [] then 0 else OwnText(nodes[0]) + TextSum(nodes[1..])
  }

  /**
   * `calculateGlobalOffset`: the text in document order before the start
   * container (all the text under root when it is not there; none for a
   * null root), plus the range's start offset.
   */
  function GlobalOffset(root: Option<Node>, range: Range): nat
  {
    (if root.Some? then TextBefore(Preorder(root.value), range.startContainer).total else 0) + range.startOffset
  }

  lemma ThenAssociative(a: Visit, b: Visit, c: Visit)
    ensures Then(Then(a, b), c) == Then(a, Then(b, c))
  {
  }

  /** Text before a target in a concatenation. */
  lemma {:induction false} TextBeforeAppend(xs: seq<Node>, ys: seq<Node>, target: nat)
    ensures TextBefore(xs + ys, target) == Then(TextBefore(xs, target), TextBefore(ys, target))
  {
    if xs == [] {
      assert xs + ys == ys;
    } else {
      assert (xs + ys)[1..] == xs[1..] + ys;
      TextBeforeAppend(xs[1..], ys, target);
      if xs[0].id != target {
        ThenAssociative(Visit(OwnText(xs[0]), false), TextBefore(xs[1..], target), TextBefore(ys, target));
      }
    }
  }

  /** The walk of `iterateNodes` counts exactly the text before the container in document order. */
  lemma {:induction false} WalkIsPreorder(n: Node, target: nat)
    ensures Walk(n, target) == TextBefore(Preorder(n), target)
    decreases n
  {
    var rest := PreorderAll(n.children);
    assert Preorder(n) == [n] + rest;
    assert ([n] + rest)[1..] == rest;
    WalkAllIsPreorder(n.children, target);
  }

  lemma {:induction false} WalkAllIsPreorder(ns: seq<Node>, target: nat)
    ensures WalkAll(ns, target) == TextBefore(PreorderAll(ns), target)
    decreases ns
  {
    if ns != [] {
      WalkIsPreorder(ns[0], target);
      WalkAllIsPreorder(ns[1..], target);
      TextBeforeAppend(Preorder(ns[0]), PreorderAll(ns[1..]), target);
    }
  }

  /** The walk stops exactly when the container is in the tree; otherwise it counts all the text. */
  lemma {:induction false} TextBeforeFound(nodes: seq<Node>, target: nat)
    ensures TextBefore(nodes, target).found <==> exists i :: 0 <= i < |nodes| && nodes[i].id == target
    ensures !TextBefore(nodes, target).found ==> TextBefore(nodes, target).total == TextSum(nodes)
    ensures TextBefore(nodes, target).total <= TextSum(nodes)
  {
    if nodes != [] {
      TextBeforeFound(nodes[1..], target);
      if nodes[0].id != target && TextBefore(nodes, target).found {
        var i :| 0 <= i < |nodes[1..]| && nodes[1..][i].id == target;
        assert nodes[i + 1].id == target;
      }
      if nodes[0].id != target && !TextBefore(nodes, target).found {
        forall i | 0 <= i < |nodes| ensures nodes[i].id != target {
          if i > 0 {
            assert nodes[i] == nodes[1..][i - 1];
          }
        }
      }
    }
  }

  /**
   * The start container and everything after it in document order (its
   * descendants first among them) contribute nothing: the offset is the text
   * before the container's first occurrence, whatever follows it.
   */
  lemma ContainerContributesNothing(nodes: seq<Node>, k: nat, target: nat, rest: seq<Node>)
    requires k < |nodes| && nodes[k].id == target
    requires forall i :: 0 <= i < k ==> nodes[i].id != target
    ensures TextBefore(nodes, target) == Visit(TextSum(nodes[..k]), true)
    ensures TextBefore(nodes[..k + 1] + rest, target) == TextBefore(nodes, target)
  {
    var before := nodes[..k];
    var after := [nodes[k]] + rest;
    assert nodes == before + nodes[k..];
    assert nodes[..k + 1] + rest == before + after by {
      assert nodes[..k + 1] == before + [nodes[k]];
    }
    PrefixWithoutContainer(before, target);
    TextBeforeAppend(before, nodes[k..], target);
    TextBeforeAppend(before, after, target);
  }

  /** A prefix without the container passes its whole text on. */
  lemma PrefixWithoutContainer(xs: seq<Node>, target: nat)
    requires forall i :: 0 <= i < |xs| ==> xs[i].id != target
    ensures TextBefore(xs, target) == Visit(TextSum(xs), false)
  {
    TextBeforeFound(xs, target);
  }

  /** A null root contributes nothing, and a root without the container contributes all its text. */
  lemma GlobalOffsetCases(root: Option<Node>, range: Range)
    ensures root.None? ==> GlobalOffset(root, range) == range.startOffset
    ensures root.Some? && (forall i :: 0 <= i < |Preorder(root.value)| ==> Preorder(root.value)[i].id != range.startContainer) ==>
      GlobalOffset(root, range) == TextSum(Preorder(root.value)) + range.startOffset
    ensures GlobalOffset(root, range) >= range.startOffset
  {
    if root.Some? {
      TextBeforeFound(Preorder(root.value), range.startContainer);
    }
  }

  /** A walk over `xs` followed by `ys` is the walk over the concatenation. */
  lemma {:induction false} WalkAllAppend(xs: seq<Node>, ys: seq<Node>, target: nat)
    ensures WalkAll(xs + ys, target) == Then(WalkAll(xs, target), WalkAll(ys, target))
  {
    if xs == [] {
      assert xs + ys == ys;
    } else {
      assert (xs + ys)[1..] == xs[1..] + ys;
      WalkAllAppend(xs[1..], ys, target);
      ThenAssociative(Walk(xs[0], target), WalkAll(xs[1..], target), WalkAll(ys, target));
    }
  }

  /**
   * `iterateNodes`: adds to `total` the text the walk of `node` counts, and
   * answers whether the walk should go on.
   */
  method IterateNodes(node: Node, target: nat, total: nat) returns (newTotal: nat, goOn: bool)
    ensures newTotal == total + Walk(node, target).total
    ensures goOn == !Walk(node, target).found
    decreases node
  {
    if node.id == target {
      return total, false;
    }
    newTotal := total;
    if node.kind == Text {
      newTotal := newTotal + node.length;
    }
    var i := 0;
    while i < |node.children|
      invariant 0 <= i <= |node.children|
      invariant newTotal == total + OwnText(node) + WalkAll(node.children[..i], target).total
      invariant !WalkAll(node.children[..i], target).found
    {
      var child := node.children[i];
      var childGoesOn;
      newTotal, childGoesOn := IterateNodes(child, target, newTotal);
      assert node.children[..i + 1] == node.children[..i] + [child];
      WalkAllAppend(node.children[..i], [child], target);
      assert WalkAll([child], target) == Then(Walk(child, target), WalkAll([], target));
      if !childGoesOn {
        assert node.children[..i + 1] + node.children[i + 1..] == node.children;
        WalkAllAppend(node.children[..i + 1], node.children[i + 1..], target);
        return newTotal, false;
      }
      i := i + 1;
    }
    assert node.children[..i] == node.children;
    goOn := true;
  }

  /** `calculateGlobalOffset`, proved to count the text before the start container in document order. */
  method CalculateGlobalOffset(root: Option<Node>, range: Range) returns (offset: nat)
    ensures offset == GlobalOffset(root, range)
  {
    var totalOffset := 0;
    if root.Some? {
      var goOn;
      totalOffset, goOn := IterateNodes(root.value, range.startContainer, 0);
      WalkIsPreorder(root.value, range.startContainer);
    }
    offset := totalOffset + range.startOffset;
  }

  // ---------------------------------------------------------------------
  // presentSelectionPopup
  // ---------------------------------------------------------------------

  /** How many characters of a selection the popup shows before cutting it. */
  const SelectionShownMax: nat := 340

  /** The selection as the popup shows it: cut to its first 340 characters and an ellipsis when longer. */
  function Shown(selection: string): (r: string)
    ensures |selection| <= SelectionShownMax ==> r == selection
    ensures |selection| > SelectionShownMax ==>
      |r| == SelectionShownMax + 1 && r[..SelectionShownMax] == selection[..SelectionShownMax] && r[SelectionShownMax] == '…'
  {
    if |selection| > SelectionShownMax then selection[..SelectionShownMax] + "…" else selection
  }

  /** Cutting twice cuts no more than cutting once. */
  lemma ShownIdempotent(selection: string)
    ensures Shown(Shown(selection)) == Shown(selection)
  {
    var r := Shown(selection);
    if |selection| > SelectionShownMax {
      assert r[..SelectionShownMax] + "…" == r;
    }
  }

  /** What the popup may offer. */
  datatype PopupAction = AskAssistant | LookUp

  /** The page's selection state: the selected text, the chat context and its section. */
  class SelectionState {
    var selectedText: Option<string>
    var chatContext: Option<string>
    var chatContextSectionId: Option<string>

    constructor(selectedText: Option<string>)
      ensures this.selectedText == selectedText && chatContext == None && chatContextSectionId == None
    {
      this.selectedText := selectedText;
      chatContext := None;
      chatContextSectionId := None;
    }

    /**
     * The state changes of `presentSelectionPopup`: with a non-empty
     * selection the chat context keeps the whole selection while the shown
     * text is cut, and the section is remembered when there is an action to
     * offer; without one nothing changes.
     */
    method PresentSelectionPopup(sectionId: string, allowedActions: seq<PopupAction>)
      modifies this
      ensures old(selectedText).Some? && old(selectedText).value != "" ==>
        && chatContext == old(selectedText)
        && selectedText == Some(Shown(old(selectedText).value))
        && chatContextSectionId == (if |allowedActions| > 0 then Some(sectionId) else old(chatContextSectionId))
      ensures !(old(selectedText).Some? && old(selectedText).value != "") ==>
        selectedText == old(selectedText) && chatContext == old(chatContext) && chatContextSectionId == old(chatContextSectionId)
    {
      if selectedText.Some? && |selectedText.value| > 0 {
        chatContext := selectedText;
        if |selectedText.value| > SelectionShownMax {
          selectedText := Some(selectedText.value[..SelectionShownMax] + "…");
        }
        if |allowedActions| > 0 {
          chatContextSectionId := Some(sectionId);
        }
      }
    }
  }

  // ---------------------------------------------------------------------
  // getSections: attaching subsections
  // ---------------------------------------------------------------------

  /** A section object parsed from the stream; `subsections` is absent until one is attached. */
  datatype SectionObject = SectionObject(id: string, parentId: Option<string>, title: string,
                                         subsections: Option<seq<SectionObject>>)

  /** The subsections attached so far (none when the list is absent). */
  function SubsectionsOf(s: SectionObject): seq<SectionObject>
  {
    if s.subsections.Some? then s.subsections.value else []
  }

  /** The section with `sub` appended to its list, which is created when absent. */
  function WithSubsection(s: SectionObject, sub: SectionObject): (r: SectionObject)
    ensures r.id == s.id && r.parentId == s.parentId && r.title == s.title
    ensures SubsectionsOf(r) == SubsectionsOf(s) + [sub]
  {
    if s.subsections.Some? then s.(subsections := Some(s.subsections.value + [sub]))
    else s.(subsections := Some([sub]))
  }

  /** The index of the first section whose id is `id`. */
  function FirstWithId(sections: seq<SectionObject>, id: string): (r: Option<nat>)
    ensures r.Some? ==> r.value < |sections| && sections[r.value].id == id
    ensures r.Some? ==> forall j :: 0 <= j < r.value ==> sections[j].id != id
    ensures r.None? <==> forall j :: 0 <= j < |sections| ==> sections[j].id != id
  {
    if sections == [] then None
    else if sections[0].id == id then Some(0)
    else match FirstWithId(sections[1..], id)
      case None => None
      case Some(i) => Some(i + 1)
  }

  /**
   * The collected sections after a new section object arrives: a section
   * is appended; a subsection joins the first section with its parent's id,
   * and is dropped when there is none.
   */
  function Collected(sections: seq<SectionObject>, obj: SectionObject): seq<SectionObject>
  {
    if obj.parentId.None? then sections + [obj]
    else match FirstWithId(sections, obj.parentId.value)
      case None => sections
      case Some(i) => sections[i := WithSubsection(sections[i], obj)]
  }

  /** The number of subsections attached over all sections. */
  function SubsectionCount(sections: seq<SectionObject>): nat
  {
    if sections == [] then 0 else |SubsectionsOf(sections[0])| + SubsectionCount(sections[1..])
  }

  lemma {:induction false} SubsectionCountUpdate(sections: seq<SectionObject>, i: nat, s: SectionObject)
    requires i < |sections|
    ensures SubsectionCount(sections[i := s]) + |SubsectionsOf(sections[i])|
      == SubsectionCount(sections) + |SubsectionsOf(s)|
  {
    if i > 0 {
      assert sections[i := s][1..] == sections[1..][i - 1 := s];
      SubsectionCountUpdate(sections[1..], i - 1, s);
    }
  }

  /**
   * A subsection is attached at most once, to the first section with its
   * parent's id: the sections keep their order and ids, every other section
   * is untouched, and the subsection count grows by one exactly when a
   * parent was found.
   */
  lemma SubsectionAttachedOnce(sections: seq<SectionObject>, obj: SectionObject)
    requires obj.parentId.Some?
    ensures var r := Collected(sections, obj);
      && |r| == |sections|
      && (forall i :: 0 <= i < |r| ==> r[i].id == sections[i].id)
      && SubsectionCount(r) == SubsectionCount(sections)
           + (if exists j :: 0 <= j < |sections| && sections[j].id == obj.parentId.value then 1 else 0)
    ensures forall i :: 0 <= i < |sections| && sections[i].id != obj.parentId.value ==>
      Collected(sections, obj)[i] == sections[i]
    ensures forall i :: (0 <= i < |sections| && sections[i].id == obj.parentId.value
      && forall j :: 0 <= j < i ==> sections[j].id != obj.parentId.value) ==>
      SubsectionsOf(Collected(sections, obj)[i]) == SubsectionsOf(sections[i]) + [obj]
  {
    var f := FirstWithId(sections, obj.parentId.value);
    if f.Some? {
      SubsectionCountUpdate(sections, f.value, WithSubsection(sections[f.value], obj));
    }
  }

  /** A top-level section is appended after the ones collected so far. */
  lemma SectionAppended(sections: seq<SectionObject>, obj: SectionObject)
    requires obj.parentId.None?
    ensures Collected(sections, obj)[..|sections|] == sections
    ensures Collected(sections, obj)[|sections|] == obj
  {
  }

  /** The sections `getSections` collects while an entry is streamed. */
  class SectionList {
    var sections: seq<SectionObject>

    constructor()
      ensures sections == []
    {
      sections := [];
    }

    /** The collecting step of `getSections` for a new entry's section object. */
    method Collect(obj: SectionObject)
      modifies this
      ensures sections == Collected(old(sections), obj)
    {
      if obj.parentId.None? {
        sections := sections + [obj];
        return;
      }
      var i := 0;
      while i < |sections|
        invariant 0 <= i <= |sections|
        invariant sections == old(sections)
        invariant forall j :: 0 <= j < i ==> sections[j].id != obj.parentId.value
      {
        if sections[i].id == obj.parentId.value {
          if sections[i].subsections.Some? {
            sections := sections[i := sections[i].(subsections := Some(sections[i].subsections.value + [obj]))];
          } else {
            sections := sections[i := sections[i].(subsections := Some([obj]))];
          }
          return;
        }
        i := i + 1;
      }
    }
  }
}
