/** The wheel as the source keeps it: thirteen head words (twelve buckets and a guard), intrusive
    prev/next words and a linked bit in each node. `View` is the simple form of WheelModel. */
module TimingWheel {
  import opened Words
  import opened WheelModel

  /** A refcounted object. Plain values use the prefix only; `rank` is their aux word. */
  class Node {
    var vtable: u32
    var word04: u32
    var rank: u32
    var prev: Node?
    var next: Node?
    var flags: Flags
    var fromValue: Node?
    var toValue: Node?
    var currentValue: Node?

    /** Everything but the two wheel links. */
    ghost function Image(): Obj<Node>
      reads `vtable, `word04, `rank, `flags, `fromValue, `toValue, `currentValue
    {
      Obj(vtable, word04, rank, flags, Ref(fromValue), Ref(toValue), Ref(currentValue))
    }
  }

  /** Storage as the heap hands it out, whatever its words hold. */
  method OperatorNew() returns (n: Node)
    ensures fresh(n)
  {
    n := new Node;
  }

  /** A pointer word: zero is no object. */
  function Ref(p: Node?): Option<Node> {
    if p == null then None else Some(p)
  }

  /** Following next words from `head` spells `s`, and the prev words are its exact inverse. */
  ghost predicate Chain(head: Node?, s: seq<Node>)
    reads s
  {
    if s == [] then head == null
    else
      && head == s[0] && s[0].prev == null && s[|s| - 1].next == null
      && (forall i :: 1 <= i < |s| ==> s[i].prev == s[i - 1])
      && (forall i :: 0 <= i < |s| - 1 ==> s[i].next == s[i + 1])
  }

  ghost predicate ChainBy(links: map<Node, (Node?, Node?)>, head: Node?, s: seq<Node>)
    requires forall i :: 0 <= i < |s| ==> s[i] in links
  {
    if s == [] then head == null
    else
      && head == s[0] && links[s[0]].0 == null && links[s[|s| - 1]].1 == null
      && (forall i :: 1 <= i < |s| ==> links[s[i]].0 == s[i - 1])
      && (forall i :: 0 <= i < |s| - 1 ==> links[s[i]].1 == s[i + 1])
  }

  ghost predicate Apart(xs: seq<Node>, ys: seq<Node>) {
    forall i :: 0 <= i < |xs| ==> xs[i] !in ys
  }

  ghost predicate Avoids(ns: set<Node>, node: Node, s: seq<Node>) {
    forall n :: n in ns ==> n != node && n !in s
  }

  ghost function Images(objects: set<Node>): map<Node, Obj<Node>>
    reads objects
  {
    map n | n in objects :: n.Image()
  }

  lemma ImagesExcept(objects: set<Node>, before: map<Node, Obj<Node>>, node: Node)
    requires before.Keys == objects && node in objects
    requires forall n :: n in objects && n != node ==> n.Image() == before[n]
    ensures Images(objects) == before[node := node.Image()]
  {
  }

  ghost function Links(objects: set<Node>): map<Node, (Node?, Node?)>
    reads objects
  {
    map n | n in objects :: (n.prev, n.next)
  }

  ghost predicate SameOn(ns: set<Node>, a: map<Node, (Node?, Node?)>, b: map<Node, (Node?, Node?)>) {
    forall n :: n in ns ==> n in a && n in b && a[n] == b[n]
  }

  /** The other objects that are in no bucket; their link words are never touched. */
  ghost function Idle(s: State<Node>, node: Node): set<Node> {
    set n | n in s.objs && n != node && !s.objs[n].flags.linked
  }

  ghost function Heads(s: State<Node>): seq<Node?>
    requires |s.buckets| == BUCKETS
  {
    seq(BUCKETS, b requires 0 <= b < BUCKETS => if s.buckets[b] == [] then null else s.buckets[b][0]) + [null]
  }

  /** The neighbours of a linked node in the bucket of its rank. */
  ghost function Neighbours(s: State<Node>, n: Node): (Node?, Node?)
    requires WF(s) && n in s.objs && s.objs[n].flags.linked
  {
    var bucket := s.buckets[s.objs[n].rank - 1];
    var i :| 0 <= i < |bucket| && bucket[i] == n;
    (if i == 0 then null else bucket[i - 1], if i == |bucket| - 1 then null else bucket[i + 1])
  }

  /** `links` gives every linked node the neighbours it has in `s`. */
  ghost predicate Spells(s: State<Node>, links: map<Node, (Node?, Node?)>)
    requires WF(s)
  {
    && links.Keys == s.objs.Keys
    && (forall n :: n in s.objs && s.objs[n].flags.linked ==> links[n] == Neighbours(s, n))
  }

  lemma LinksRestored(s: State<Node>, node: Node, before: map<Node, (Node?, Node?)>,
                 between: map<Node, (Node?, Node?)>, after: map<Node, (Node?, Node?)>)
    requires WF(s) && node in s.objs && !s.objs[node].flags.linked && Insertable(s.objs[node].rank)
    requires Spells(s, before) && Spells(s, after)
    requires SameOn(Idle(s, node), before, between) && SameOn(Idle(Link(s, node), node), between, after)
    ensures after - {node} == before - {node}
  {
    forall n | n in s.objs && n != node
      ensures after[n] == before[n]
    {
      if !s.objs[n].flags.linked {
        assert n in Idle(s, node) && n in Idle(Link(s, node), node);
      }
    }
  }

  class Wheel {
    const heads: array<Node?>

    ghost var buckets: seq<seq<Node>>
    ghost var objects: set<Node>
    ghost var live: set<Node>
    ghost var drained: multiset<Node>

    ghost function View(): State<Node>
      reads this, objects
    {
      State(buckets, Images(objects), live, drained)
    }

    /** Twelve head words that start the twelve chains, and the guard word after them still zero. */
    ghost predicate Wired()
      reads this, heads, objects
    {
      && heads.Length == BUCKETS + 1 && heads[BUCKETS] == null
      && |buckets| == BUCKETS
      && (forall b :: 0 <= b < BUCKETS ==> Tracked(buckets[b]) && Chain(heads[b], buckets[b]))
    }

    ghost predicate Tracked(s: seq<Node>)
      reads this
    {
      forall i :: 0 <= i < |s| ==> s[i] in objects
    }

    /** Wired, as a statement about a snapshot of the link words. */
    ghost predicate WiredBy(links: map<Node, (Node?, Node?)>)
      reads this, heads
    {
      && links.Keys == objects
      && heads.Length == BUCKETS + 1 && heads[BUCKETS] == null
      && |buckets| == BUCKETS
      && (forall b :: 0 <= b < BUCKETS ==> Tracked(buckets[b]) && ChainBy(links, heads[b], buckets[b]))
    }

    lemma WiredBoth()
      ensures Wired() <==> WiredBy(Links(objects))
    {
      if |buckets| == BUCKETS && heads.Length == BUCKETS + 1 {
        forall b | 0 <= b < BUCKETS && Tracked(buckets[b])
          ensures ChainBy(Links(objects), heads[b], buckets[b]) == Chain(heads[b], buckets[b])
        {
        }
      }
    }

    ghost predicate Valid()
      reads this, heads, objects
    {
      WF(View()) && Wired()
    }

    /** The zeroed thirteen-word table. */
    constructor ()
      ensures Valid() && fresh(heads)
      ensures View() == State(seq(BUCKETS, _ => []), map[], {}, multiset{})
    {
      heads := new Node?[BUCKETS + 1](_ => null);
      buckets := seq(BUCKETS, _ => []);
      objects, live, drained := {}, {}, multiset{};
    }

    method Insert(node: Node)
      requires Valid() && node in objects
      requires node.flags.linked || Insertable(node.rank)
      modifies this, heads, objects
      ensures Valid() && objects == old(objects)
      ensures View() == Link(old(View()), node)
      ensures SameOn(Idle(old(View()), node), old(Links(objects)), Links(objects))
      ensures View() == old(View()) ==> Links(objects) == old(Links(objects))
    {
      var bucket := Bucket(node.rank);
      if Signed(bucket) < 0 || node.flags.linked {
        return;
      }
      ghost var s := View();
      BucketsApart(bucket, node);
      PushFront(bucket, node, Idle(s, node));
      LinkKeepsWF(s, node);
      assert View() == Link(s, node);
    }

    method Remove(node: Node)
      requires Valid() && node in objects
      modifies this, heads, objects
      ensures Valid() && objects == old(objects)
      ensures View() == Unlink(old(View()), node)
      ensures SameOn(Idle(old(View()), node), old(Links(objects)), Links(objects))
      ensures node.prev == old(node.prev) && node.next == old(node.next)
    {
      if !node.flags.linked {
        return;
      }
      ghost var s := View();
      ghost var i := Position(node);
      var bucket := Bucket(node.rank);
      assert s.objs[node] == node.Image();
      BucketsApart(bucket, node);
      UnlinkAt(s, node, i);
      PullOut(bucket, node, i, Idle(s, node));
      assert View() == Unlink(s, node);
    }

    /** The stores of a remove that goes ahead, seen by the whole wheel. */
    method PullOut(bucket: nat, node: Node, ghost i: nat, ghost idle: set<Node>)
      requires Wired() && bucket < BUCKETS && i < |buckets[bucket]| && node == buckets[bucket][i]
      requires forall b :: 0 <= b < BUCKETS && b != bucket ==> Apart(buckets[b], [node] + buckets[bucket])
      requires Distinct(buckets[bucket])
      requires idle <= objects && Avoids(idle, node, buckets[bucket])
      modifies this`buckets, heads, node`flags, buckets[bucket]`prev, buckets[bucket]`next
      ensures node.prev == old(node.prev) && node.next == old(node.next)
      ensures Wired()
      ensures buckets == old(buckets)[bucket := old(buckets)[bucket][..i] + old(buckets)[bucket][i + 1..]]
      ensures Images(objects) ==
              old(Images(objects))[node := old(node.Image()).(flags := old(node.flags).(linked := false))]
      ensures SameOn(idle, old(Links(objects)), Links(objects))
    {
      ghost var chain, images := buckets[bucket], Images(objects);
      SpliceOut(heads, bucket, node, chain, i, objects);
      forall b | 0 <= b < BUCKETS && b != bucket
        ensures Chain(heads[b], buckets[b])
      {
        assert old(Chain(heads[b], buckets[b]));
      }
      Rewire(bucket, chain[..i] + chain[i + 1..]);
      ImagesExcept(objects, images, node);
    }

    /** The stores of an insert that goes ahead, seen by the whole wheel. */
    method PushFront(bucket: nat, node: Node, ghost idle: set<Node>)
      requires Wired() && bucket < BUCKETS && node in objects && node !in buckets[bucket]
      requires forall b :: 0 <= b < BUCKETS && b != bucket ==> Apart(buckets[b], [node] + buckets[bucket])
      requires Distinct(buckets[bucket])
      requires idle <= objects && Avoids(idle, node, buckets[bucket])
      modifies this`buckets, heads, node`prev, node`next, node`flags, buckets[bucket]`prev
      ensures Wired() && buckets == old(buckets)[bucket := [node] + old(buckets)[bucket]]
      ensures Images(objects) == old(Images(objects))[node := old(node.Image()).(flags := old(node.flags).(linked := true))]
      ensures SameOn(idle, old(Links(objects)), Links(objects))
    {
      ghost var chain, images := buckets[bucket], Images(objects);
      SpliceFront(heads, bucket, node, chain, objects);
      forall b | 0 <= b < BUCKETS && b != bucket
        ensures Chain(heads[b], buckets[b])
      {
        assert old(Chain(heads[b], buckets[b]));
      }
      Rewire(bucket, [node] + chain);
      ImagesExcept(objects, images, node);
    }

    lemma Position(node: Node) returns (i: nat)
      requires Valid() && node in objects && node.flags.linked
      ensures 1 <= node.rank <= BUCKETS && Bucket(node.rank) == node.rank - 1
      ensures i < |buckets[node.rank - 1]| && buckets[node.rank - 1][i] == node
    {
      assert View().objs[node] == node.Image();
      i :| 0 <= i < |buckets[node.rank - 1]| && buckets[node.rank - 1][i] == node;
    }

    /** The simple form determines every head word and every link word of a linked node. */
    lemma ViewDeterminesLinks()
      requires Valid()
      ensures heads[..] == Heads(View())
      ensures Spells(View(), Links(objects))
    {
      var s := View();
      forall n | n in s.objs && s.objs[n].flags.linked
        ensures (n.prev, n.next) == Neighbours(s, n)
      {
        assert s.objs[n] == n.Image();
        assert Chain(heads[n.rank - 1], s.buckets[n.rank - 1]);
      }
    }

    /** An insert that goes ahead, followed by a remove, restores all thirteen head words and both
        links of every other node. */
    method InsertThenRemove(node: Node)
      requires Valid() && node in objects && !node.flags.linked && Insertable(node.rank)
      modifies this, heads, objects
      ensures Valid() && View() == old(View())
      ensures heads[..] == old(heads[..])
      ensures objects == old(objects)
      ensures Links(objects) - {node} == old(Links(objects)) - {node}
    {
      ghost var s, before := View(), Links(objects);
      ViewDeterminesLinks();
      LinkThenUnlink(s, node);
      Insert(node);
      ghost var between := Links(objects);
      Remove(node);
      ViewDeterminesLinks();
      LinksRestored(s, node, before, between, Links(objects));
    }

    ghost method Rewire(bucket: nat, chain: seq<Node>)
      requires heads.Length == BUCKETS + 1 && heads[BUCKETS] == null
      requires |buckets| == BUCKETS && bucket < BUCKETS
      requires Tracked(chain) && Chain(heads[bucket], chain)
      requires forall b :: 0 <= b < BUCKETS && b != bucket ==> Tracked(buckets[b]) && Chain(heads[b], buckets[b])
      modifies this`buckets
      ensures Wired() && buckets == old(buckets)[bucket := chain]
    {
      buckets := buckets[bucket := chain];
    }

    /** No other bucket shares a member with this one, or holds a node that is not linked there. */
    lemma BucketsApart(bucket: nat, node: Node)
      requires Valid() && bucket < BUCKETS && node in objects
      requires node.flags.linked ==> node.rank == bucket + 1
      ensures Distinct(buckets[bucket])
      ensures !node.flags.linked ==> node !in buckets[bucket]
      ensures Avoids(Idle(View(), node), node, buckets[bucket])
      ensures forall b :: 0 <= b < BUCKETS && b != bucket ==> Apart(buckets[b], [node] + buckets[bucket])
    {
      var s := View();
      assert s.objs[node] == node.Image();
      forall n | n in Idle(View(), node)
        ensures n != node && n !in buckets[bucket]
      {
        assert s.objs[n] == n.Image() && n !in s.buckets[bucket];
      }
      forall b | 0 <= b < BUCKETS && b != bucket
        ensures Apart(buckets[b], [node] + buckets[bucket])
      {
        forall i | 0 <= i < |buckets[b]|
          ensures buckets[b][i] !in [node] + buckets[bucket]
        {
          var m := buckets[b][i];
          assert m in s.buckets[b] && s.objs[m] == m.Image();
          assert m !in s.buckets[bucket];
        }
      }
    }
  }

  /** The stores of an insert, in the source's order, seen by the one chain they touch. */
  method SpliceFront(heads: array<Node?>, bucket: nat, node: Node, ghost chain: seq<Node>, ghost objects: set<Node>)
    requires bucket < heads.Length && Chain(heads[bucket], chain)
    requires node !in chain && Distinct(chain)
    modifies heads, node`prev, node`next, node`flags, chain`prev
    ensures heads[..] == old(heads[..])[bucket := node]
    ensures Chain(node, [node] + chain)
    ensures forall n :: n in objects && n != node ==> n.Image() == old(n.Image())
    ensures node.Image() == old(node.Image()).(flags := old(node.flags).(linked := true))
  {
    node.prev := null;
    var oldHead := heads[bucket];
    node.next := oldHead;
    heads[bucket] := node;
    node.flags := node.flags.(linked := true);
    if oldHead != null {
      oldHead.prev := node;
    }
  }

  /** Who stands next to whom once the i-th node is out of a sequence without repeats. */
  lemma Cut(chain: seq<Node>, i: nat)
    requires i < |chain| && Distinct(chain)
    ensures var rest := chain[..i] + chain[i + 1..];
            && (forall k :: 0 <= k < |rest| ==> rest[k] == (if k < i then chain[k] else chain[k + 1]) && rest[k] != chain[i])
  {
  }

  /** The stores of a remove, in the source's order, seen by the one chain they touch. */
  method SpliceOut(heads: array<Node?>, bucket: nat, node: Node, ghost chain: seq<Node>, ghost i: nat,
                   ghost objects: set<Node>)
    requires bucket < heads.Length && Chain(heads[bucket], chain)
    requires i < |chain| && node == chain[i] && Distinct(chain)
    modifies heads, node`flags, chain`prev, chain`next
    ensures heads[..] == old(heads[..])[bucket := heads[bucket]]
    ensures Chain(heads[bucket], chain[..i] + chain[i + 1..])
    ensures forall n :: n in objects && n != node ==> n.Image() == old(n.Image())
    ensures node.Image() == old(node.Image()).(flags := old(node.flags).(linked := false))
    ensures node.prev == old(node.prev) && node.next == old(node.next)
  {
    assert node.prev == (if i == 0 then null else chain[i - 1]);
    assert node.next == (if i == |chain| - 1 then null else chain[i + 1]);
    Cut(chain, i);
    var next := node.next;
    if heads[bucket] == node {
      heads[bucket] := next;
    } else {
      var prev := node.prev;
      if prev != null {
        prev.next := next;
      }
    }
    if next != null {
      next.prev := node.prev;
    }
    node.flags := node.flags.(linked := false);
  }

  /** The global word that holds the one wheel, null until first use. */
  class Scheduler {
    var table: Wheel?

    constructor ()
      ensures table == null
    {
      table := null;
    }

    /** `scheduler_table_get_or_create`: a wheel already there is returned as it is. */
    method GetOrCreate() returns (w: Wheel)
      modifies this
      ensures table == w
      ensures old(table) != null ==> w == old(table)
      ensures old(table) == null ==>
                fresh(w) && w.Valid() && w.View() == State(seq(BUCKETS, _ => []), map[], {}, multiset{})
    {
      if table != null {
        return table;
      }
      w := new Wheel();
      table := w;
    }

    /** `timing_wheel_insert_global` */
    method InsertGlobal(node: Node)
      requires table != null && table.Valid() && node in table.objects
      requires node.flags.linked || Insertable(node.rank)
      modifies table, table.heads, table.objects
      ensures table == old(table) && table.Valid()
      ensures table.View() == Link(old(table.View()), node)
    {
      table.Insert(node);
    }

    /** `timing_wheel_remove_global` */
    method RemoveGlobal(node: Node)
      requires table != null && table.Valid() && node in table.objects
      modifies table, table.heads, table.objects
      ensures table == old(table) && table.Valid()
      ensures table.View() == Unlink(old(table.View()), node)
    {
      table.Remove(node);
    }
  }
}
