/** The string rope under the JSON writer and the SQL accumulator (src/stringbuf.c). */
module StringBufs {
  import opened CStrings

  class Node {
    const part: Option<string>
    var next: Node?

    constructor (part: Option<string>)
      ensures this.part == part && next == null
    {
      this.part, this.next := part, null;
    }
  }

  function PartText(p: Option<string>): string {
    if p.Some? then p.value else ""
  }

  function Concat(parts: seq<string>): string {
    if parts == [] then "" else parts[0] + Concat(parts[1..])
  }

  lemma {:induction false} ConcatSnoc(parts: seq<string>, p: string)
    ensures Concat(parts + [p]) == Concat(parts) + p
  {
    if parts == [] {
      assert parts + [p] == [p];
      assert Concat([p]) == p + Concat([]);
    } else {
      assert (parts + [p])[1..] == parts[1..] + [p];
      ConcatSnoc(parts[1..], p);
    }
  }

  lemma ConcatSplit(parts: seq<string>, k: nat, done: string)
    requires k < |parts|
    ensures done + Concat(parts[k..]) == done + parts[k] + Concat(parts[k + 1..])
  {
    assert parts[k..][1..] == parts[k + 1..];
    assert done + (parts[k] + Concat(parts[k + 1..])) == done + parts[k] + Concat(parts[k + 1..]);
  }

  class StringBuf {
    var head: Node
    var tail: Node
    /** The nodes from `head` to `tail`, and the parts they carry. */
    ghost var nodes: seq<Node>
    ghost var parts: seq<string>
    ghost var Repr: set<object>

    ghost predicate Valid()
      reads this, Repr
      ensures Valid() ==> this in Repr
    {
      && this in Repr
      && 1 <= |nodes| == |parts| && head == nodes[0] && tail == nodes[|nodes| - 1]
      && (forall i :: 0 <= i < |nodes| ==> nodes[i] in Repr && parts[i] == PartText(nodes[i].part))
      && (forall i :: 0 <= i < |nodes| - 1 ==> nodes[i].next == nodes[i + 1])
      && tail.next == null
    }

    ghost function Text(): string
      reads this
    {
      Concat(parts)
    }

    /** sb_new(NULL). */
    constructor ()
      ensures Valid() && fresh(Repr) && Text() == ""
    {
      var n := new Node(None);
      head, tail := n, n;
      nodes, parts, Repr := [n], [""], {this, n};
    }

    /** sb_append: link a node behind the tail. */
    method Append(s: string)
      requires Valid()
      modifies Repr
      ensures Valid() && fresh(Repr - old(Repr))
      ensures Text() == old(Text()) + s
    {
      var n := new Node(Some(s));
      assert forall i :: 0 <= i < |nodes| - 1 ==> nodes[i] != tail by {
        forall i | 0 <= i < |nodes| - 1 ensures nodes[i] != tail {
          assert nodes[i].next == nodes[i + 1];
        }
      }
      ConcatSnoc(parts, s);
      tail.next := n;
      tail := n;
      nodes, parts, Repr := nodes + [n], parts + [s], Repr + {n};
    }

    /** sb_len. */
    method Length() returns (len: nat)
      requires Valid()
      ensures len == |Text()|
    {
      len := 0;
      var node: Node? := head;
      ghost var k := 0;
      while node != null
        invariant 0 <= k <= |nodes| && node == if k == |nodes| then null else nodes[k]
        invariant len + |Concat(parts[k..])| == |Text()|
        decreases |nodes| - k
      {
        if node.part.Some? { len := len + |node.part.value|; }
        node := node.next;
        k := k + 1;
      }
    }

    /** sb_to_char: copy every part behind the previous one into a buffer of exactly enough space. */
    method ToChars() returns (out: array<char>)
      requires Valid()
      ensures fresh(out) && out.Length == |Text()| + 1
      ensures out[..|Text()|] == Text() && out[|Text()|] == NUL
    {
      var n := Length();
      out := new char[n + 1];
      out[0] := NUL;
      var end := 0;
      var node: Node? := head;
      ghost var k := 0;
      while node != null
        invariant 0 <= k <= |nodes| && node == if k == |nodes| then null else nodes[k]
        invariant 0 <= end <= n && out[..end] + Concat(parts[k..]) == Text() && out[end] == NUL
        decreases |nodes| - k
      {
        ghost var done := out[..end];
        ConcatSplit(parts, k, done);
        if node.part.Some? {
          CopyPart(out, end, node.part.value);
          end := end + |node.part.value|;
        }
        assert out[..end] == done + parts[k];
        node := node.next;
        k := k + 1;
      }
      assert out[..end] == Text();
    }
  }

  /** `strcpy(&out[end], part)`. */
  method CopyPart(out: array<char>, end: nat, part: string)
    requires end + |part| < out.Length
    modifies out
    ensures out[..end + |part|] == old(out[..end]) + part && out[end + |part|] == NUL
  {
    var i := 0;
    while i < |part|
      invariant i <= |part| && out[..end + i] == old(out[..end]) + part[..i]
    {
      out[end + i] := part[i];
      i := i + 1;
    }
    out[end + i] := NUL;
  }
}
