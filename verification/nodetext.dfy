/** Text extraction of the simulated dating-app adapter: a bounded
    pre-order walk of the accessibility node tree that joins the trimmed,
    non-empty node texts with " | ". */
module NodeText {
  import opened Wrappers
  import opened Text

  /** An accessibility node; a child slot may be empty (`getChild` returned
      null). */
  datatype Node = Node(text: Option<string>, contentDescription: Option<string>, children: seq<Option<Node>>)

  /** Nodes deeper than this below the source node are not visited. */
  const MaxDepth: nat := 5
  const Separator: string := " | "
  const UnknownPackage: string := "UnknownPackage"

  /** A piece of output: non-empty, with no whitespace at either end. */
  predicate Visible(p: string) {
    |p| > 0 && !IsWhitespace(p[0]) && !IsWhitespace(p[|p| - 1])
  }

  /** The node's trimmed text, when it is non-empty; the content description
      is not consulted. */
  function Piece(n: Node): (r: Option<string>)
    ensures r.Some? ==> Visible(r.value)
  {
    match n.text
    case Some(t) =>
      TrimShape(t);
      if |Trim(t)| > 0 then Some(Trim(t)) else None
    case None => None
  }

  /** Appending one piece to the builder: the separator goes in only when
      the builder already holds text. */
  function Append(out: string, piece: string): string {
    if |out| > 0 then out + Separator + piece else out + piece
  }

  // ---- The walk as the source writes it ----

  /** `collectTextFromNode(node, output, depth)`. */
  function Collect(n: Node, out: string, depth: nat): string
    decreases n, |n.children| + 1
  {
    if depth > MaxDepth then out
    else
      var out' := match Piece(n) case Some(p) => Append(out, p) case None => out;
      CollectFrom(n, 0, out', depth)
  }

  /** The loop over the children from index `i`, skipping null slots. */
  function CollectFrom(n: Node, i: nat, out: string, depth: nat): string
    requires i <= |n.children|
    decreases n, |n.children| - i
  {
    if i == |n.children| then out
    else
      var out' := match n.children[i]
        case Some(c) => assert n.children[i] in n.children; Collect(c, out, depth + 1)
        case None => out;
      CollectFrom(n, i + 1, out', depth)
  }

  // ---- Reference reading: the pieces in pre-order ----

  /** The visible texts of the nodes within the depth bound, the node's own
      first, then each child's in index order. */
  function Pieces(n: Node, depth: nat): (r: seq<string>)
    ensures forall k :: 0 <= k < |r| ==> Visible(r[k])
    ensures depth > MaxDepth ==> r == []
    ensures depth <= MaxDepth && Piece(n).Some? ==> |r| > 0 && r[0] == Piece(n).value
    decreases n, |n.children| + 1
  {
    if depth > MaxDepth then []
    else
      (match Piece(n) case Some(p) => [p] case None => []) + PiecesFrom(n, 0, depth)
  }

  function PiecesFrom(n: Node, i: nat, depth: nat): (r: seq<string>)
    requires i <= |n.children|
    ensures forall k :: 0 <= k < |r| ==> Visible(r[k])
    decreases n, |n.children| - i
  {
    if i == |n.children| then []
    else
      (match n.children[i]
       case Some(c) => assert n.children[i] in n.children; Pieces(c, depth + 1)
       case None => [])
      + PiecesFrom(n, i + 1, depth)
  }

  /** Appending pieces one by one. */
  function AppendAll(out: string, ps: seq<string>): string
    decreases |ps|
  {
    if |ps| == 0 then out else AppendAll(Append(out, ps[0]), ps[1..])
  }

  lemma {:induction false} AppendAllConcat(out: string, a: seq<string>, b: seq<string>)
    ensures AppendAll(out, a + b) == AppendAll(AppendAll(out, a), b)
    decreases |a|
  {
    if |a| > 0 {
      assert (a + b)[0] == a[0] && (a + b)[1..] == a[1..] + b;
      AppendAllConcat(Append(out, a[0]), a[1..], b);
    } else {
      assert a + b == b;
    }
  }

  /** The walk appends exactly the reference pieces, in order. */
  lemma {:induction false} CollectAppendsPieces(n: Node, out: string, depth: nat)
    ensures Collect(n, out, depth) == AppendAll(out, Pieces(n, depth))
    decreases n, |n.children| + 1
  {
    if depth <= MaxDepth {
      var own := match Piece(n) case Some(p) => [p] case None => [];
      var out' := match Piece(n) case Some(p) => Append(out, p) case None => out;
      assert AppendAll(out, own) == out' by {
        if Piece(n).Some? {
          assert own[1..] == [];
        }
      }
      CollectFromAppendsPieces(n, 0, out', depth);
      AppendAllConcat(out, own, PiecesFrom(n, 0, depth));
    }
  }

  lemma {:induction false} CollectFromAppendsPieces(n: Node, i: nat, out: string, depth: nat)
    requires i <= |n.children|
    ensures CollectFrom(n, i, out, depth) == AppendAll(out, PiecesFrom(n, i, depth))
    decreases n, |n.children| - i
  {
    if i < |n.children| {
      match n.children[i] {
        case Some(c) =>
          assert n.children[i] in n.children;
          CollectAppendsPieces(c, out, depth + 1);
          var mid := Collect(c, out, depth + 1);
          CollectFromAppendsPieces(n, i + 1, mid, depth);
          AppendAllConcat(out, Pieces(c, depth + 1), PiecesFrom(n, i + 1, depth));
        case None =>
          CollectFromAppendsPieces(n, i + 1, out, depth);
          var rest := PiecesFrom(n, i + 1, depth);
          assert [] + rest == rest;
          assert PiecesFrom(n, i, depth) == rest;
          assert CollectFrom(n, i, out, depth) == CollectFrom(n, i + 1, out, depth);
      }
    }
  }

  /** Appending non-empty pieces to an empty builder is joining them. */
  lemma {:induction false} AppendAllIsJoin(out: string, ps: seq<string>)
    requires forall k :: 0 <= k < |ps| ==> |ps[k]| > 0
    ensures |out| > 0 && |ps| > 0 ==> AppendAll(out, ps) == out + Separator + Join(ps, Separator)
    ensures |out| > 0 && |ps| == 0 ==> AppendAll(out, ps) == out
    ensures |out| == 0 ==> AppendAll(out, ps) == Join(ps, Separator)
    decreases |ps|
  {
    if |ps| > 0 {
      var next := Append(out, ps[0]);
      AppendAllIsJoin(next, ps[1..]);
      if |ps| > 1 {
        assert Join(ps, Separator) == ps[0] + Separator + Join(ps[1..], Separator);
        if |out| > 0 {
          assert next == out + Separator + ps[0];
          assert AppendAll(out, ps) == next + Separator + Join(ps[1..], Separator);
        } else {
          assert next == ps[0];
        }
      } else {
        assert Join(ps, Separator) == ps[0];
        assert AppendAll(out, ps) == next;
      }
    }
  }

  /** A join of visible pieces starts and ends visibly. */
  lemma {:induction false} JoinVisible(ps: seq<string>)
    requires |ps| > 0 && forall k :: 0 <= k < |ps| ==> Visible(ps[k])
    ensures Visible(Join(ps, Separator))
    decreases |ps|
  {
    if |ps| > 1 {
      JoinVisible(ps[1..]);
      var rest := Join(ps[1..], Separator);
      assert Join(ps, Separator) == ps[0] + Separator + rest;
    }
  }

  /** `processAccessibilityEvent`: no source node gives null; otherwise the
      collected text, trimmed, or null when it is empty. */
  function Process(source: Option<Node>): Option<string> {
    match source
    case None => None
    case Some(n) =>
      var r := Trim(Collect(n, "", 0));
      if |r| > 0 then Some(r) else None
  }

  /** The result is null exactly when no node within the depth bound has
      visible text, and otherwise the pieces joined by " | ", never starting
      or ending with the separator's spaces. */
  lemma ProcessJoinsPieces(n: Node)
    ensures Process(Some(n)).None? <==> Pieces(n, 0) == []
    ensures Pieces(n, 0) != [] ==> Process(Some(n)) == Some(Join(Pieces(n, 0), Separator))
  {
    var ps := Pieces(n, 0);
    CollectAppendsPieces(n, "", 0);
    AppendAllIsJoin("", ps);
    if ps != [] {
      JoinVisible(ps);
      TrimOfTrimmed(Join(ps, Separator));
    } else {
      assert Trim("") == "";
    }
  }

  /** The content description never contributes: changing it anywhere in
      the node leaves the pieces as they were. */
  lemma {:induction false} DescriptionIgnored(n: Node, desc: Option<string>, depth: nat)
    ensures Pieces(n.(contentDescription := desc), depth) == Pieces(n, depth)
  {
    var m := n.(contentDescription := desc);
    if depth <= MaxDepth {
      SameChildrenSamePieces(m, n, 0, depth);
    }
  }

  lemma {:induction false} SameChildrenSamePieces(m: Node, n: Node, i: nat, depth: nat)
    requires m.children == n.children && i <= |n.children|
    ensures PiecesFrom(m, i, depth) == PiecesFrom(n, i, depth)
    decreases |n.children| - i
  {
    if i < |n.children| {
      SameChildrenSamePieces(m, n, i + 1, depth);
    }
  }

  /** A node below the depth bound is not visited at all. */
  lemma TooDeepContributesNothing(n: Node, out: string, depth: nat)
    requires depth > MaxDepth
    ensures Collect(n, out, depth) == out
  {
  }

  /** The context entry stored for a successful extraction. */
  datatype ContextEntry = ContextEntry(packageName: string, text: string)

  /** The result and the entry handed to the context store: an entry is
      stored exactly when text was extracted, under the event's package or
      `UnknownPackage`. */
  function HandleEvent(eventPackage: Option<string>, source: Option<Node>): (r: (Option<string>, Option<ContextEntry>))
    ensures r.1.Some? <==> r.0.Some?
    ensures r.1.Some? ==> r.1.value == ContextEntry(eventPackage.GetOr(UnknownPackage), r.0.value)
    ensures r.0 == Process(source)
  {
    var result := Process(source);
    (result, match result case Some(t) => Some(ContextEntry(eventPackage.GetOr(UnknownPackage), t)) case None => None)
  }
}
