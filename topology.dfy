/**
 * The stream topology of `buildTopologyFlow` (TestDeadLetterTopic.java,
 * lines 49-71): the input stream is split into named branches, the first
 * branch whose predicate holds takes the event, the default branch takes
 * the rest, and each branch is written unchanged to its own topic.
 */
module Topology {
  import opened Wrappers
  import opened Transactions

  const OutTopicName: string := "my-output-topic"
  const DeadLetterTopicName: string := "dl-topic"

  /** The two output topics the branches are written to. */
  datatype Topic = OutputTopic | DeadLetterTopic {
    function Name(): (n: string)
      ensures n == OutTopicName <==> this == OutputTopic
      ensures n == DeadLetterTopicName <==> this == DeadLetterTopic
    {
      match this
      case OutputTopic => OutTopicName
      case DeadLetterTopic => DeadLetterTopicName
    }
  }

  /** One `branch(predicate, Branched.as(name))` step, with the topic it goes `to`. */
  datatype Branch = Branch(name: string, test: (Option<string>, ItemTransaction) -> bool, sink: Topic)

  /**
   * The index of the first branch whose predicate accepts the event, or
   * None when the event falls through to the default branch.
   */
  function FirstMatch(branches: seq<Branch>, e: Event): (r: Option<nat>)
    ensures r.Some? ==> r.value < |branches| && branches[r.value].test(e.key, e.value)
    ensures r.Some? ==> forall j :: 0 <= j < r.value ==> !branches[j].test(e.key, e.value)
    ensures r.None? <==> forall j :: 0 <= j < |branches| ==> !branches[j].test(e.key, e.value)
    decreases |branches|
  {
    if branches == [] then None
    else if branches[0].test(e.key, e.value) then Some(0)
    else match FirstMatch(branches[1..], e)
      case None => None
      case Some(i) => Some(i + 1)
  }

  /** The topic an event is written to: the first matching branch's, else the default's. */
  function SinkOf(branches: seq<Branch>, default: Topic, e: Event): Topic
  {
    match FirstMatch(branches, e)
    case Some(i) => branches[i].sink
    case None => default
  }

  /** Lines 57-60: the only explicit branch is "wrong-tx"; the default branch "good-tx" goes to the output topic. */
  const Branches: seq<Branch> := [Branch("wrong-tx", (k, v) => IsWrong(v), DeadLetterTopic)]
  const DefaultSink: Topic := OutputTopic

  /** The routing decision of the topology for one event. */
  function Classify(e: Event): Topic
  {
    SinkOf(Branches, DefaultSink, e)
  }

  /**
   * An event is dead-lettered exactly when its transaction is wrong, and
   * otherwise reaches the output topic through the default branch.
   */
  lemma ClassifyIsValidity(e: Event)
    ensures Classify(e) == DeadLetterTopic <==> !(HasText(e.value.storeName) && HasText(e.value.sku))
    ensures Classify(e) == OutputTopic <==> HasText(e.value.storeName) && HasText(e.value.sku)
  {
    var r := FirstMatch(Branches, e);
    assert Branches[0].test(e.key, e.value) == IsWrong(e.value);
    if IsWrong(e.value) {
      assert r == Some(0);
    } else {
      assert r == None;
    }
  }

  /** A wrong event is written to "dl-topic", any other to "my-output-topic". */
  lemma ClassifyNamesTopic(e: Event)
    ensures Classify(e).Name() == DeadLetterTopicName <==> IsWrong(e.value)
    ensures Classify(e).Name() == OutTopicName <==> !IsWrong(e.value)
  {
    ClassifyIsValidity(e);
  }

  /** The key plays no part: re-keying an event never changes its topic. */
  lemma ClassifyIgnoresKey(e: Event, key: Option<string>)
    ensures Classify(e.(key := key)) == Classify(e)
  {
    ClassifyIsValidity(e);
    ClassifyIsValidity(e.(key := key));
  }

  /** Events whose store name and sku agree are routed alike. */
  lemma ClassifyOnlyReadsRoutingFields(a: Event, b: Event)
    requires SameRoutingFields(a.value, b.value)
    ensures Classify(a) == Classify(b)
  {
    ClassifyIsValidity(a);
    ClassifyIsValidity(b);
  }

  /** What has been written to the two output topics. */
  datatype Outputs = Outputs(good: seq<Event>, deadLetter: seq<Event>)

  /** Appends one event, unchanged, to the topic it is routed to. */
  function Deliver(o: Outputs, e: Event): Outputs
  {
    if Classify(e) == DeadLetterTopic then o.(deadLetter := o.deadLetter + [e])
    else o.(good := o.good + [e])
  }

  /** The two topics after the events of `s` have been piped in, in order. */
  function Split(s: seq<Event>): Outputs
    decreases |s|
  {
    if s == [] then Outputs([], [])
    else Deliver(Split(s[..|s| - 1]), s[|s| - 1])
  }

  /** Reference definition: the events of `s` routed to `t`, in input order. */
  function Select(s: seq<Event>, t: Topic): seq<Event>
    decreases |s|
  {
    if s == [] then []
    else (if Classify(s[0]) == t then [s[0]] else []) + Select(s[1..], t)
  }

  lemma {:induction false} SelectAppend(s: seq<Event>, e: Event, t: Topic)
    ensures Select(s + [e], t) == Select(s, t) + (if Classify(e) == t then [e] else [])
    decreases |s|
  {
    var tail := if Classify(e) == t then [e] else [];
    if s == [] {
      assert s + [e] == [e];
      assert Select([e], t) == tail + Select([], t);
    } else {
      var head := if Classify(s[0]) == t then [s[0]] else [];
      var s' := s + [e];
      assert s'[0] == s[0];
      assert s'[1..] == s[1..] + [e];
      assert Select(s', t) == head + Select(s[1..] + [e], t);
      SelectAppend(s[1..], e, t);
      assert Select(s', t) == head + (Select(s[1..], t) + tail);
      assert head + (Select(s[1..], t) + tail) == (head + Select(s[1..], t)) + tail;
    }
  }

  /** Each output topic is the order-preserving filter of the input by its topic. */
  lemma {:induction false} SplitIsSelect(s: seq<Event>)
    ensures Split(s).good == Select(s, OutputTopic)
    ensures Split(s).deadLetter == Select(s, DeadLetterTopic)
    decreases |s|
  {
    if s != [] {
      var p, e := s[..|s| - 1], s[|s| - 1];
      assert s == p + [e];
      SplitIsSelect(p);
      SelectAppend(p, e, OutputTopic);
      SelectAppend(p, e, DeadLetterTopic);
    }
  }

  /** With no input, both output topics are empty. */
  lemma SplitEmpty()
    ensures Split([]) == Outputs([], [])
  {
  }

  lemma {:induction false} SelectPartition(s: seq<Event>)
    ensures multiset(Select(s, OutputTopic)) + multiset(Select(s, DeadLetterTopic)) == multiset(s)
    decreases |s|
  {
    if s != [] {
      SelectPartition(s[1..]);
      assert s == [s[0]] + s[1..];
    }
  }

  /**
   * Nothing is lost and nothing is duplicated: the two topics together hold
   * exactly the input events, as a multiset, so their sizes add up.
   */
  lemma {:induction false} SplitPartition(s: seq<Event>)
    ensures multiset(Split(s).good) + multiset(Split(s).deadLetter) == multiset(s)
    ensures |Split(s).good| + |Split(s).deadLetter| == |s|
  {
    SplitIsSelect(s);
    SelectPartition(s);
    assert |multiset(Split(s).good) + multiset(Split(s).deadLetter)| == |multiset(s)|;
  }

  lemma {:induction false} SelectSound(s: seq<Event>, t: Topic)
    ensures forall e :: e in Select(s, t) ==> e in s && Classify(e) == t
    decreases |s|
  {
    if s != [] {
      SelectSound(s[1..], t);
    }
  }

  lemma {:induction false} SelectComplete(s: seq<Event>, t: Topic)
    ensures forall e :: e in s && Classify(e) == t ==> e in Select(s, t)
    decreases |s|
  {
    if s != [] {
      SelectComplete(s[1..], t);
      assert forall e :: e in s ==> e == s[0] || e in s[1..];
    }
  }

  /**
   * Every output event is an input event, it reaches the dead-letter topic
   * exactly when it is wrong, and every input event lands in exactly one of
   * the two topics.
   */
  lemma {:induction false} SplitRoutesByValidity(s: seq<Event>)
    ensures forall e :: e in Split(s).good ==> e in s && !IsWrong(e.value)
    ensures forall e :: e in Split(s).deadLetter ==> e in s && IsWrong(e.value)
    ensures forall e :: e in s ==> (e in Split(s).deadLetter <==> IsWrong(e.value))
    ensures forall e :: e in s ==> (e in Split(s).good <==> !IsWrong(e.value))
  {
    SplitIsSelect(s);
    SelectSound(s, OutputTopic);
    SelectSound(s, DeadLetterTopic);
    SelectComplete(s, OutputTopic);
    SelectComplete(s, DeadLetterTopic);
    forall e: Event ensures Classify(e) == DeadLetterTopic <==> IsWrong(e.value) {
      ClassifyIsValidity(e);
    }
  }

  /** No event value is found in both topics. */
  lemma {:induction false} SplitExclusive(s: seq<Event>)
    ensures forall e :: e in Split(s).good ==> e !in Split(s).deadLetter
  {
    SplitRoutesByValidity(s);
  }

  /**
   * Inputs that differ only in keys, operation types, quantities or prices
   * fill the two topics with the same number of events, position by position
   * holding the same store names and skus.
   */
  lemma {:induction false} SplitIgnoresPayload(s: seq<Event>, u: seq<Event>)
    requires |s| == |u|
    requires forall i :: 0 <= i < |s| ==> SameRoutingFields(s[i].value, u[i].value)
    ensures |Split(s).good| == |Split(u).good|
    ensures |Split(s).deadLetter| == |Split(u).deadLetter|
    ensures forall i :: 0 <= i < |Split(s).good| ==> SameRoutingFields(Split(s).good[i].value, Split(u).good[i].value)
    ensures forall i :: 0 <= i < |Split(s).deadLetter| ==> SameRoutingFields(Split(s).deadLetter[i].value, Split(u).deadLetter[i].value)
    decreases |s|
  {
    if s != [] {
      var n := |s| - 1;
      SplitIgnoresPayload(s[..n], u[..n]);
      ClassifyOnlyReadsRoutingFields(s[n], u[n]);
    }
  }

  /**
   * Keys are forwarded verbatim: when every input is keyed by its store name,
   * as the tests pipe them, so is every event in either topic.
   */
  lemma {:induction false} SplitPreservesKeys(s: seq<Event>)
    requires forall e :: e in s ==> e.key == e.value.storeName
    ensures forall e :: e in Split(s).good ==> e.key == e.value.storeName
    ensures forall e :: e in Split(s).deadLetter ==> e.key == e.value.storeName
  {
    SplitRoutesByValidity(s);
  }
}
