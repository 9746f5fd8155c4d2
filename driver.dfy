/**
 * The test driver's view of the topology: events are piped into the input
 * topic one at a time (TestDeadLetterTopic.java, lines 117, 126) and the
 * two output topics are FIFO queues that the tests size, test for
 * emptiness and drain from the front (lines 111, 118-119, 127-129).
 */
module Driver {
  import opened Wrappers
  import opened Transactions
  import opened Topology

  class Router {
    /** The records of "my-output-topic" not yet read, oldest first. */
    var good: seq<Event>
    /** The records of "dl-topic" not yet read, oldest first. */
    var deadLetter: seq<Event>

    /** Every event piped in so far, and how many records each topic has given up. */
    ghost var piped: seq<Event>
    ghost var readGood: nat
    ghost var readDead: nat

    /** The unread part of each queue is what the topology wrote, minus what was read. */
    ghost predicate Valid()
      reads this
    {
      && readGood <= |Split(piped).good|
      && readDead <= |Split(piped).deadLetter|
      && good == Split(piped).good[readGood..]
      && deadLetter == Split(piped).deadLetter[readDead..]
    }

    function Queue(t: Topic): seq<Event>
      reads this
    {
      match t
      case OutputTopic => good
      case DeadLetterTopic => deadLetter
    }

    /** A driver over a freshly built topology: nothing piped, nothing to read. */
    constructor ()
      ensures Valid()
      ensures piped == [] && readGood == 0 && readDead == 0
      ensures good == [] && deadLetter == []
    {
      good, deadLetter := [], [];
      piped, readGood, readDead := [], 0, 0;
    }

    /** `pipeInput(key, value)`: the event is appended, unchanged, to the queue of its branch. */
    method Route(key: Option<string>, value: ItemTransaction)
      requires Valid()
      modifies this
      ensures Valid()
      ensures piped == old(piped) + [Event(key, value)]
      ensures readGood == old(readGood) && readDead == old(readDead)
      ensures IsWrong(value) ==> deadLetter == old(deadLetter) + [Event(key, value)] && good == old(good)
      ensures !IsWrong(value) ==> good == old(good) + [Event(key, value)] && deadLetter == old(deadLetter)
    {
      var e := Event(key, value);
      ClassifyIsValidity(e);
      ghost var before := piped;
      ghost var after := before + [e];
      assert after[..|after| - 1] == before;
      assert Split(after) == Deliver(Split(before), e);
      if Classify(e) == DeadLetterTopic {
        assert Split(before).deadLetter[readDead..] + [e] == (Split(before).deadLetter + [e])[readDead..];
        deadLetter := deadLetter + [e];
      } else {
        assert Split(before).good[readGood..] + [e] == (Split(before).good + [e])[readGood..];
        good := good + [e];
      }
      piped := after;
    }

    /**
     * `readValue()`: removes the oldest record of topic `t` and returns its
     * value; the other topic is untouched. An empty topic yields None and
     * nothing changes.
     */
    method ReadValue(t: Topic) returns (v: Option<ItemTransaction>)
      requires Valid()
      modifies this
      ensures Valid()
      ensures piped == old(piped)
      ensures old(Queue(t)) == [] ==> v == None && good == old(good) && deadLetter == old(deadLetter)
      ensures old(Queue(t)) != [] ==> v == Some(old(Queue(t))[0].value) && Queue(t) == old(Queue(t))[1..]
      ensures t == OutputTopic ==> deadLetter == old(deadLetter) && readDead == old(readDead)
      ensures t == DeadLetterTopic ==> good == old(good) && readGood == old(readGood)
    {
      if t == OutputTopic {
        if good == [] {
          v := None;
        } else {
          v := Some(good[0].value);
          good := good[1..];
          readGood := readGood + 1;
        }
      } else {
        if deadLetter == [] {
          v := None;
        } else {
          v := Some(deadLetter[0].value);
          deadLetter := deadLetter[1..];
          readDead := readDead + 1;
        }
      }
    }

    /** `getQueueSize()`: the number of unread records of topic `t`. */
    method QueueSize(t: Topic) returns (n: nat)
      requires Valid()
      ensures n == |Queue(t)|
      ensures t == OutputTopic ==> n == |Split(piped).good| - readGood
      ensures t == DeadLetterTopic ==> n == |Split(piped).deadLetter| - readDead
    {
      n := |Queue(t)|;
    }

    /** `isEmpty()`: whether topic `t` has no unread record. */
    method IsEmpty(t: Topic) returns (b: bool)
      requires Valid()
      ensures b <==> Queue(t) == []
    {
      b := Queue(t) == [];
    }
  }

  /** Nothing to read on either topic: the state every test starts from and leaves. */
  ghost predicate Drained(r: Router)
    reads r
  {
    r.Valid() && r.good == [] && r.deadLetter == []
  }

  /** Every event ever piped has been read back, routed exactly as Split says. */
  lemma DrainedReadsEverything(r: Router)
    requires Drained(r)
    ensures r.readGood == |Split(r.piped).good| && r.readDead == |Split(r.piped).deadLetter|
    ensures r.readGood + r.readDead == |r.piped|
  {
    SplitPartition(r.piped);
  }
}
