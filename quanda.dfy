/** The conversation tree: `SimpleQuanda` nodes, each a question with a mock
    answer and a link to the node it was asked from, and `QuandaStream`, the
    generator object that calling a node returns. */
module Quanda {
  import opened PyValues
  import opened PySeq
  import opened Oracle
  import opened AnswerStream
  import opened Context

  /** A subscript: an integer, or a slice `start:stop:step`. */
  datatype Key = Index(i: int) | Range(start: Option<int>, stop: Option<int>, step: Option<int>)

  /** What a subscript returns: one node, or a list of nodes. */
  datatype Item = Node(node: SimpleQuanda) | Nodes(nodes: seq<SimpleQuanda>)

  /** The oracle count `messages` starts from. */
  function StartCount(selfOracle: Option<SimpleQuandaOracle>): nat {
    if selfOracle.None? then 0 else selfOracle.value.counttofuture
  }

  /** The question and answer of each node of `s`, as `messages` reads them. */
  ghost function Entries(s: seq<SimpleQuanda>): seq<Entry>
    reads set x | x in s
  {
    seq(|s|, i reads s requires 0 <= i < |s| => Entry(s[i].question, s[i].answer))
  }

  class SimpleQuanda {
    /** The node this one was asked from; null for a conversation root. */
    const parent: SimpleQuanda?
    /** `Q` */
    const question: string
    /** `mA`: the canned answer the stream plays back, possibly `None`. */
    const mockAnswer: Option<string>
    /** `lazy`: set once and never cleared. */
    const lazy: bool
    /** `A`: absent until a stream over this node has run to its end. */
    var answer: Option<string>
    /** The nodes from the root down to `parent`, root first. */
    ghost const ancestors: seq<SimpleQuanda>

    /** The `ancestors` are exactly the chain of parent links. */
    ghost predicate Linked()
      decreases |ancestors|
    {
      if parent == null then ancestors == []
      else ancestors == parent.ancestors + [parent] && parent.Linked()
    }

    /** The node's path from the root, root first and this node last. */
    ghost function Path(): seq<SimpleQuanda> {
      ancestors + [this]
    }

    /** The number of parent hops from this node to the root. */
    ghost function Depth(): nat
      requires Linked()
      decreases |ancestors|
    {
      if parent == null then 0 else parent.Depth() + 1
    }

    /** `SimpleQuanda(question, parent, mockanswer)` */
    constructor (question: string, parent: SimpleQuanda?, mockAnswer: Option<string>)
      requires parent != null ==> parent.Linked()
      ensures Linked()
      ensures this.parent == parent && this.question == question && this.mockAnswer == mockAnswer
      ensures lazy && answer.None?
      ensures Path() == (if parent == null then [] else parent.Path()) + [this]
    {
      this.parent := parent;
      this.question := question;
      this.mockAnswer := mockAnswer;
      this.lazy := true;
      this.answer := None;
      this.ancestors := if parent == null then [] else parent.ancestors + [parent];
    }

    /** `ask`: a new child of this node; nothing is streamed and this node
        is left as it was. */
    method Ask(question: string, mockAnswer: Option<string>) returns (child: SimpleQuanda)
      requires Linked()
      ensures fresh(child) && child.Linked()
      ensures child.parent == this && child.question == question && child.mockAnswer == mockAnswer
      ensures child.lazy && child.answer.None?
      ensures child.Path() == Path() + [child]
      ensures child.Len() == Len() + 1
    {
      child := new SimpleQuanda(question, this, mockAnswer);
    }

    /** `done`: whether the attribute `A` exists. */
    function Done(): bool
      reads this
    {
      answer.Some?
    }

    /** The path is as long as the node is deep, plus one. */
    lemma {:induction false} PathLength()
      requires Linked()
      ensures |Path()| == Depth() + 1
      decreases |ancestors|
    {
      if parent != null {
        parent.PathLength();
      }
    }

    /** The path starts at a root, ends at this node, and each node on it is
        the parent of the next. */
    lemma {:induction false} PathIsParentChain()
      requires Linked()
      ensures Path()[0].parent == null
      ensures Path()[|Path()| - 1] == this
      ensures forall k :: 0 < k < |Path()| ==> Path()[k].parent == Path()[k - 1]
      decreases |ancestors|
    {
      if parent != null {
        parent.PathIsParentChain();
        assert Path() == parent.Path() + [this];
      }
    }

    /** Every node on the path is linked, and its own path is the part of
        this path that ends at it; so a node's path holds each node once. */
    lemma {:induction false} PathPrefixes()
      requires Linked()
      ensures forall k :: 0 <= k < |Path()| ==>
        Path()[k].Linked() && Path()[k].Path() == Path()[..k + 1]
      decreases |ancestors|
    {
      if parent != null {
        parent.PathPrefixes();
        assert Path() == parent.Path() + [this];
        forall k | 0 <= k < |Path()|
          ensures Path()[k].Linked() && Path()[k].Path() == Path()[..k + 1]
        {
          if k < |Path()| - 1 {
            assert Path()[k] == parent.Path()[k];
            assert Path()[..k + 1] == parent.Path()[..k + 1];
          }
        }
      }
    }

    /** No node occurs twice on a path: the parent chain is acyclic. */
    lemma PathDistinct()
      requires Linked()
      ensures forall i, j :: 0 <= i < j < |Path()| ==> Path()[i] != Path()[j]
    {
      PathPrefixes();
      forall i, j | 0 <= i < j < |Path()|
        ensures Path()[i] != Path()[j]
      {
        assert |Path()[i].Path()| == i + 1;
        assert |Path()[j].Path()| == j + 1;
      }
    }

    /** `node.path`: walks the parent links up to the root. */
    function NodePath(): (p: seq<SimpleQuanda>)
      requires Linked()
      decreases |ancestors|
      ensures p == Path()
    {
      if parent == null then [this] else parent.NodePath() + [this]
    }

    /** `__len__`: the number of nodes on the path, one more than the depth. */
    function Len(): (n: nat)
      requires Linked()
      ensures n == Depth() + 1
    {
      PathLength();
      |NodePath()|
    }

    /** `__getslice__(i, j)`: the path nodes that Python's slice `[i:j]`
        selects, copied into a new list in path order. */
    method GetSlice(i: Option<int>, j: Option<int>) returns (slic: seq<SimpleQuanda>)
      requires Linked()
      ensures slic == Slice(Path(), i, j)
    {
      var selected := Slice(NodePath(), i, j);
      slic := [];
      var k := 0;
      while k < |selected|
        invariant 0 <= k <= |selected|
        invariant slic == selected[..k]
      {
        slic := slic + [selected[k]];
        k := k + 1;
      }
    }

    /** `__getitem__`: an integer reads one path node (IndexError outside
        `[-len, len)`); a slice goes to `__getslice__` with its start and stop,
        its step being dropped. */
    method GetItem(key: Key) returns (r: Result<Item>)
      requires Linked()
      ensures key.Index? ==>
        r == (match At(Path(), key.i) case Ok(q) => Ok(Node(q)) case Err(e) => Err(e))
      ensures key.Range? ==> r == Ok(Nodes(Slice(Path(), key.start, key.stop)))
    {
      if key.Range? {
        var nodes := GetSlice(key.start, key.stop);
        return Ok(Nodes(nodes));
      }
      var p := NodePath();
      match ResolveIndex(|p|, key.i)
      case None => r := Err(IndexError);
      case Some(k) => r := Ok(Node(p[k]));
    }

    /** Reading the path by index: the last position and -1 give this node,
        position 0 the root, and an index outside `[-len, len)` raises. */
    lemma PathIndexing(i: int)
      requires Linked()
      ensures At(Path(), Len() - 1) == Ok(this) && At(Path(), -1) == Ok(this)
      ensures At(Path(), 0).Ok? && At(Path(), 0).value.parent == null
      ensures At(Path(), -(Len() as int)) == At(Path(), 0)
      ensures At(Path(), i).Err? <==> i < -(Len() as int) || Len() <= i
    {
      PathLength();
      PathIsParentChain();
    }

    /** `self[-100:100]`, on a path no longer than 100 nodes, is the whole
        path; indeed any slice whose bounds reach past both ends is. */
    lemma WholeSlice()
      requires Linked() && Len() <= 100
      ensures Slice(Path(), Some(-100), Some(100)) == Path()
    {
      PathLength();
      SliceWhole(Path(), Some(-100), Some(100));
    }

    /** `messages(self_oracle)`: recursively the parent's records (with an
        oracle one hop further), then this node's question and answer, both
        stamped with this node's oracle count. Reading a missing `A` raises
        AttributeError after the question record. */
    function Messages(selfOracle: Option<SimpleQuandaOracle>): (e: Emission)
      requires Linked()
      reads set x | x in Path()
      decreases |ancestors|
    {
      var oracle := if selfOracle.None? then NewOracle(None) else selfOracle.value;
      var before :=
        if parent == null then Emission([], None)
        else
          assert Path() == parent.Path() + [this];
          parent.Messages(Some(NewOracle(Some(oracle))));
      if before.error.Some? then before
      else
        var withQuestion := before.records + [QRecord(question, oracle.counttofuture)];
        if answer.None? then Emission(withQuestion, Some(AttributeError))
        else Emission(withQuestion + [ARecord(answer.value, oracle.counttofuture)], None)
    }

    /** `messages` builds the transcript of the path's questions and
        answers, this node being at the starting distance. */
    lemma {:induction false} MessagesIsTranscript(selfOracle: Option<SimpleQuandaOracle>)
      requires Linked()
      decreases |ancestors|
      ensures Messages(selfOracle) == Transcript(Entries(Path()), StartCount(selfOracle))
    {
      var p := Path();
      var oracle := if selfOracle.None? then NewOracle(None) else selfOracle.value;
      if parent == null {
        assert Entries(p)[..0] == [];
      } else {
        var up := Some(NewOracle(Some(oracle)));
        parent.MessagesIsTranscript(up);
        assert p == parent.Path() + [this];
        assert Entries(p)[..|p| - 1] == Entries(parent.Path());
      }
    }

    /** The oracle that `messages` hands to the ancestor `k` hops up when this
        node starts from `oracle`: each hop wraps the previous oracle once. */
    ghost function OracleUp(oracle: SimpleQuandaOracle, k: nat): SimpleQuandaOracle
      requires Linked() && k <= Depth()
      decreases |ancestors|
    {
      if k == 0 then oracle else parent.OracleUp(NewOracle(Some(oracle)), k - 1)
    }

    /** Starting from the oracle `j` hops from the asking node, the ancestor
        `k` hops further up gets the oracle `j + k` hops out, which reports
        distance `j + k` and is consistent with its chain of `child` links.
        With `j = 0` (`messages()` called without an oracle) each node is
        stamped with its own hop count, the distance MessagesOrder states. */
    lemma {:induction false} OracleUpCounts(j: nat, k: nat)
      requires Linked() && k <= Depth()
      ensures OracleUp(OracleAfter(j), k) == OracleAfter(j + k)
      ensures OracleUp(OracleAfter(j), k).counttofuture == j + k
      ensures Counted(OracleUp(OracleAfter(j), k))
      decreases |ancestors|
    {
      if k > 0 {
        parent.OracleUpCounts(j + 1, k - 1);
      }
      OracleAfterCounts(j + k);
    }

    /** How many nodes at the front of the path are done. */
    ghost function DonePrefix(): (j: nat)
      requires Linked()
      reads set x | x in Path()
      ensures j <= |Path()|
      ensures forall i :: 0 <= i < j ==> Path()[i].Done()
      ensures j < |Path()| ==> !Path()[j].Done()
    {
      var es := Entries(Path());
      assert forall i :: 0 <= i < |Path()| ==> es[i].answer == Path()[i].answer;
      LeadingAnswered(es)
    }

    /** What `messages` yields, root first: for each node at path position
        `i`, its question and then its answer, stamped with distance
        `|Path()| - 1 - i` (`len - 1 - i`) on top of the starting count, so this node gets the
        starting count and its parent one more. Iteration stops with
        AttributeError right after the question of the first node that is
        not done; it ends normally exactly when every node on the path is. */
    lemma MessagesOrder(selfOracle: Option<SimpleQuandaOracle>)
      requires Linked()
      ensures Messages(selfOracle).error.None? <==> DonePrefix() == |Path()|
      ensures Messages(selfOracle).error.Some? ==> Messages(selfOracle).error.value == AttributeError
      ensures |Messages(selfOracle).records| ==
        if DonePrefix() == |Path()| then 2 * |Path()| else 2 * DonePrefix() + 1
      ensures forall i :: 0 <= i < DonePrefix() ==>
        && Messages(selfOracle).records[2 * i]
           == QRecord(Path()[i].question, StartCount(selfOracle) + (|Path()| - 1 - i))
        && Messages(selfOracle).records[2 * i + 1]
           == ARecord(Path()[i].answer.value, StartCount(selfOracle) + (|Path()| - 1 - i))
      ensures DonePrefix() < |Path()| ==>
        Messages(selfOracle).records[2 * DonePrefix()]
        == QRecord(Path()[DonePrefix()].question, StartCount(selfOracle) + (|Path()| - 1 - DonePrefix()))
    {
      var p, c := Path(), StartCount(selfOracle);
      var es := Entries(p);
      MessagesIsTranscript(selfOracle);
      TranscriptOrder(es, c);
      forall i | 0 <= i < |p|
        ensures es[i] == Entry(p[i].question, p[i].answer)
      {
      }
    }

    /** `messages()` without an oracle stamps each done node's question and
        answer with the count of the oracle threaded up to it: `|Path()| - 1 - i`
        hops for the node at path position `i`. */
    lemma MessagesOracles()
      requires Linked()
      ensures var e, n := Messages(None), |Path()|;
        forall i :: 0 <= i < DonePrefix() ==>
          && 2 * i + 1 < |e.records| && n - 1 - i <= Depth()
          && e.records[2 * i].at == OracleUp(OracleAfter(0), n - 1 - i).counttofuture
          && e.records[2 * i + 1].at == OracleUp(OracleAfter(0), n - 1 - i).counttofuture
    {
      var e, n := Messages(None), |Path()|;
      PathLength();
      MessagesOrder(None);
      forall i | 0 <= i < DonePrefix()
        ensures 2 * i + 1 < |e.records| && n - 1 - i <= Depth()
        ensures e.records[2 * i].at == OracleUp(OracleAfter(0), n - 1 - i).counttofuture
        ensures e.records[2 * i + 1].at == OracleUp(OracleAfter(0), n - 1 - i).counttofuture
      {
        OracleUpCounts(0, n - 1 - i);
      }
    }

    /** `__call__`: a new generator over this node; nothing runs yet. */
    method Call() returns (stream: QuandaStream)
      ensures fresh(stream) && stream.owner == this && stream.phase == Created
    {
      stream := new QuandaStream(this);
    }

    /** `wait`: drains a new generator and returns `A`. A lazy node with a
        mock answer returns it and is done afterwards; iterating a `None`
        mock answer raises TypeError and leaves `A` alone. */
    method Wait() returns (r: Result<string>)
      modifies this`answer
      ensures answer == Drained(lazy, mockAnswer, old(answer))
      ensures lazy && mockAnswer.Some? ==> r == Ok(mockAnswer.value) && Done()
      ensures lazy && mockAnswer.None? ==> r == Err(TypeError)
      ensures !lazy ==> r == (if answer.Some? then Ok(answer.value) else Err(AttributeError))
    {
      ghost var s := Stream(lazy, mockAnswer, answer);
      ghost var start := State(Created, answer);
      StreamShape(lazy, mockAnswer, answer);
      var stream := Call();
      var step := stream.Next();
      ghost var n := 1;
      RunFollowsStream(lazy, mockAnswer, start.stored, n);
      while step.Yield?
        invariant 1 <= n <= |s|
        invariant stream.owner == this
        invariant Run(lazy, mockAnswer, start, n) == Trace(State(stream.phase, answer), s[..n])
        invariant step == s[n - 1]
        decreases |s| - n
      {
        step := stream.Next();
        n := n + 1;
        RunFollowsStream(lazy, mockAnswer, start.stored, n);
      }
      RunFollowsStream(lazy, mockAnswer, start.stored, |s|);
      if step.Raise? {
        return Err(step.error);
      }
      r := Ok(answer.value);
    }
  }

  /** The generator object `node()` returns. */
  class QuandaStream {
    const owner: SimpleQuanda
    var phase: Phase

    constructor (owner: SimpleQuanda)
      ensures this.owner == owner && phase == Created
    {
      this.owner := owner;
      phase := Created;
    }

    /** `next()`: runs the generator body to its next `yield`, `return` or
        exception, writing the node's `A` only when the loop is over. */
    method Next() returns (step: Step)
      modifies this, owner`answer
      ensures Transition(State(phase, owner.answer), step)
           == Resume(owner.lazy, owner.mockAnswer, State(old(phase), old(owner.answer)))
    {
      match phase
      case Created =>
        if !owner.lazy {
          if owner.answer.None? {
            phase := Finished;
            step := Raise(AttributeError);
          } else {
            phase := CachedYielded;
            step := Yield(owner.answer.value);
          }
        } else if owner.mockAnswer.None? {
          phase := Finished;
          step := Raise(TypeError);
        } else {
          step := Advance(owner.mockAnswer.value, 0, "");
        }
      case Looping(text, pos, answer) =>
        step := Advance(text, pos, answer);
      case CachedYielded =>
        phase := Finished;
        step := StopIteration;
      case Finished =>
        step := StopIteration;
    }

    /** The body of `for char in text` from position `pos`, with `answer`
        accumulated so far. */
    method Advance(text: string, pos: nat, answer: string) returns (step: Step)
      modifies this, owner`answer
      ensures Transition(State(phase, owner.answer), step)
           == LoopStep(text, pos, answer, old(owner.answer))
    {
      if pos < |text| {
        var c := text[pos];
        phase := Looping(text, pos + 1, answer + [c]);
        step := Yield([c]);
      } else {
        owner.answer := Some(answer);
        phase := Finished;
        step := StopIteration;
      }
    }
  }
}
