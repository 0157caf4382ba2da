/** The script part of the module: one root question waited for, a follow-up
    asked from it and streamed, then the follow-up's path and context. Output
    is replaced by the values the script prints. */
module Demo {
  import opened PyValues
  import opened PySeq
  import opened AnswerStream
  import opened Context
  import opened Quanda

  /** Drains `stream` over a fresh lazy node as a `for token in node()` loop
      does, returning the concatenated tokens. */
  method StreamAll(node: SimpleQuanda, stream: QuandaStream) returns (shown: string)
    requires stream.owner == node && stream.phase == Created
    requires node.lazy && node.mockAnswer.Some?
    modifies stream, node`answer
    ensures shown == node.mockAnswer.value
    ensures node.answer == node.mockAnswer
  {
    ghost var m := node.mockAnswer.value;
    ghost var s := Stream(true, Some(m), node.answer);
    ghost var start := State(Created, node.answer);
    DrainedText(m, start.stored);
    var step := stream.Next();
    ghost var n := 1;
    RunFollowsStream(true, Some(m), start.stored, n);
    shown := "";
    while step.Yield?
      invariant 1 <= n <= |s|
      invariant stream.owner == node
      invariant Run(true, Some(m), start, n) == Trace(State(stream.phase, node.answer), s[..n])
      invariant step == s[n - 1]
      invariant shown == m[..n - 1]
      decreases |s| - n
    {
      assert m[..n - 1] + [m[n - 1]] == m[..n];
      shown := shown + step.fragment;
      step := stream.Next();
      n := n + 1;
      RunFollowsStream(true, Some(m), start.stored, n);
    }
    assert n == |s|;
    RunFollowsStream(true, Some(m), start.stored, n);
    assert m[..|m|] == m;
  }

  /** Waiting twice on a lazy node gives the same answer both times, though
      the second wait streams the mock answer again rather than reusing `A`. */
  method WaitTwice(node: SimpleQuanda) returns (answered: Result<string>, again: Result<string>)
    requires node.lazy && node.mockAnswer.Some?
    modifies node`answer
    ensures answered == again == Ok(node.mockAnswer.value)
    ensures node.Done()
  {
    answered := node.Wait();
    again := node.Wait();
  }

  /** The script's subscripts on a two-node chain: `[1]` is the child
      itself, and `[0:2]` is the root followed by the child. */
  method TwoNodePath(root: SimpleQuanda, child: SimpleQuanda)
    returns (second: Result<Item>, both: Result<Item>)
    requires root.Linked() && root.parent == null
    requires child.Linked() && child.parent == root
    ensures second == Ok(Node(child))
    ensures both == Ok(Nodes([root, child]))
  {
    assert child.Path() == [root, child];
    second := child.GetItem(Index(1));
    SliceWhole(child.Path(), Some(0), Some(2));
    both := child.GetItem(Range(Some(0), Some(2), None));
  }

  /** The context of a node asked from a root, both answered: the root's
      question and answer at distance 1, then the node's own at distance 0. */
  lemma TwoNodeContext(root: SimpleQuanda, child: SimpleQuanda)
    requires root.Linked() && root.parent == null && root.Done()
    requires child.Linked() && child.parent == root && child.Done()
    ensures child.Messages(None) == Emission([
      QRecord(root.question, 1), ARecord(root.answer.value, 1),
      QRecord(child.question, 0), ARecord(child.answer.value, 0)], None)
  {
    assert child.Path() == [root, child];
    child.MessagesOrder(None);
    assert Entries(child.Path())[0].answer.Some? && Entries(child.Path())[1].answer.Some?;
    assert LeadingAnswered(Entries(child.Path())) == 2;
  }

  /** The scenario: the root is done once waited for; the follow-up streams
      its whole mock answer, has length 2, `[1]` is itself and `[0:2]` is the
      root then itself; its context gives the root's records at distance 1
      and its own at distance 0. */
  method Scenario()
    returns (quanda1: SimpleQuanda, quanda2: SimpleQuanda, done1: bool, shown: string, len: nat,
             second: Result<Item>, both: Result<Item>, context: Emission)
    ensures done1
    ensures shown == "My authentication service."
    ensures len == 2
    ensures second == Ok(Node(quanda2))
    ensures both == Ok(Nodes([quanda1, quanda2]))
    ensures context == Emission([
      QRecord("What is my name?", 1), ARecord("You are anonymous user.", 1),
      QRecord("What makes my user anonymous?", 0), ARecord("My authentication service.", 0)], None)
  {
    quanda1 := new SimpleQuanda("What is my name?", null, Some("You are anonymous user."));
    var answered := quanda1.Wait();
    done1 := quanda1.Done();
    quanda2 := quanda1.Ask("What makes my user anonymous?", Some("My authentication service."));
    var stream := quanda2.Call();
    shown := StreamAll(quanda2, stream);
    len := quanda2.Len();
    assert quanda2.Path() == [quanda1, quanda2];
    second, both := TwoNodePath(quanda1, quanda2);
    context := quanda2.Messages(None);
    TwoNodeContext(quanda1, quanda2);
  }
}
