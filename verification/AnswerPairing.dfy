/**
 * Which message an answer on a connection belongs to. The protocol numbers neither requests
 * nor answers: the worker takes answer number i to belong to message number i.
 */
module AnswerPairing {
  import opened Bytes
  import opened RobotLink
  import opened RobotLinkInvariant

  /** The messages up to the answer's own were read on connection c only. */
  lemma {:induction false} AllBefore(served: seq<Served>, c: nat, i: nat)
    requires forall a | 0 <= a < |served| && served[a].conn == c :: served[a].index < i
    ensures AnswersBefore(served, c, i) == |Given(served, c)|
  {
    if served != [] {
      AllBefore(served[..|served| - 1], c, i);
    }
  }

  /** Answer n of connection c is one to a message before number i exactly if n is among the first of those counted. */
  lemma {:induction false} CountedExactlyIf(served: seq<Served>, c: nat, i: nat, n: nat)
    requires ReadInOrder(served) && n < |Given(served, c)|
    ensures var r := Given(served, c)[n];
            && r.serial < |served| && served[r.serial].conn == c
            && (served[r.serial].index < i <==> n < AnswersBefore(served, c, i))
  {
    var m := |served| - 1;
    var before, last := served[..m], served[m];
    if n < |Given(before, c)| {
      CountedExactlyIf(before, c, i, n);
      CountWithin(before, c, i);
      if last.conn == c && last.index < i {
        AllBefore(before, c, i);
      }
    } else if last.index < i {
      AllBefore(before, c, i);
    } else {
      CountWithin(before, c, i);
    }
  }

  lemma {:induction false} CountWithin(served: seq<Served>, c: nat, i: nat)
    ensures AnswersBefore(served, c, i) <= |Given(served, c)|
  {
    if served != [] {
      CountWithin(served[..|served| - 1], c, i);
    }
  }

  /** The answers of a step start where the answers to earlier messages end. */
  lemma {:induction false} BlockStarts(served: seq<Served>, c: nat, n: nat)
    requires ReadInOrder(served) && n < |Given(served, c)|
    ensures var r := Given(served, c)[n];
            && r.serial < |served| && served[r.serial].conn == c
            && var first := AnswersBefore(served, c, served[r.serial].index);
               && first <= n < first + |served[r.serial].answers|
               && r.value == served[r.serial].answers[n - first]
  {
    var m := |served| - 1;
    var before, last := served[..m], served[m];
    if n < |Given(before, c)| {
      BlockStarts(before, c, n);
    } else {
      AllBefore(before, c, last.index);
    }
  }

  /** While no message was answered twice, there are no more answers than messages. */
  lemma {:induction false} PoliteCount(served: seq<Served>, c: nat, i: nat)
    requires ReadInOrder(served)
    requires forall a | 0 <= a < |served| && served[a].conn == c && served[a].index < i :: |served[a].answers| <= 1
    ensures AnswersBefore(served, c, i) <= i
  {
    if served != [] {
      var m := |served| - 1;
      var before, last := served[..m], served[m];
      if last.conn == c && last.index < i {
        AllBefore(before, c, i);
        AllBefore(before, c, last.index);
        PoliteCount(before, c, last.index);
      } else {
        PoliteCount(before, c, i);
      }
    }
  }

  /** Answer r was given to message i of connection c. */
  predicate AnswerTo(served: seq<Served>, c: nat, i: nat, r: Reply) {
    && r.serial < |served| && served[r.serial].conn == c && served[r.serial].index == i
    && r.value in served[r.serial].answers
  }

  /** Answer r is the controller's only answer to message m. */
  predicate IsAnswer(served: seq<Served>, conns: seq<Conn>, m: Message, r: Reply) {
    && r.serial < |served|
    && var v := served[r.serial];
       && v.answers == [r.value]
       && v.conn < |conns| && v.index < |conns[v.conn].sent|
       && conns[v.conn].sent[v.index] == m
  }

  /**
   * What the worker received as the answer to message i of connection c was given to that
   * message exactly if the i messages before it were given i answers in all; otherwise they
   * were given more, and it is a surplus answer to one of them.
   */
  lemma PairedExactlyIf(s: State, k: nat, c: nat, i: nat, r: Reply)
    requires ServedInv(s) && StreamInv(s) && ReceivedAs(s, k, c, i, r)
    ensures r.serial < |s.served| && s.served[r.serial].conn == c
    ensures AnswerTo(s.served, c, i, r) <==> AnswersBefore(s.served, c, i) == i
    ensures s.served[r.serial].index < i <==> AnswersBefore(s.served, c, i) > i
    ensures AnswersBefore(s.served, c, i) >= i
  {
    assert StreamOn(s, c);
    assert NotEarly(s.served, c, i);
    CountedExactlyIf(s.served, c, i, i);
    BlockStarts(s.served, c, i);
    if i > 0 {
      assert NotEarly(s.served, c, i - 1);
      CountedExactlyIf(s.served, c, i, i - 1);
    }
    hide Given, AnswersBefore, ReadInOrder;
  }

  /** In that case it was the first answer to the message. */
  lemma PairedIsFirst(s: State, k: nat, c: nat, i: nat, r: Reply)
    requires ServedInv(s) && StreamInv(s) && ReceivedAs(s, k, c, i, r) && AnswerTo(s.served, c, i, r)
    ensures s.served[r.serial].answers[0] == r.value
  {
    PairedExactlyIf(s, k, c, i, r);
    BlockStarts(s.served, c, i);
    hide Given, AnswersBefore, ReadInOrder;
  }

  /**
   * As long as the controller has answered nothing twice on the connection, up to this very
   * answer, it is the message's own.
   */
  lemma PolitePaired(s: State, k: nat, c: nat, i: nat, r: Reply)
    requires ServedInv(s) && StreamInv(s) && ReceivedAs(s, k, c, i, r)
    requires PoliteUpTo(s.served, r.serial)
    ensures AnswerTo(s.served, c, i, r) && IsAnswer(s.served, s.conns, Message(Client(k), s.submitted[k]), r)
  {
    PairedExactlyIf(s, k, c, i, r);
    BlockStarts(s.served, c, i);
    var j := s.served[r.serial].index;
    forall a | 0 <= a < |s.served| && s.served[a].conn == c && s.served[a].index < j
      ensures |s.served[a].answers| <= 1
    {
      assert a <= r.serial;
    }
    PoliteCount(s.served, c, j);
    hide Given, AnswersBefore, ReadInOrder;
    assert |s.served[r.serial].answers| <= 1;
    PairedIsFirst(s, k, c, i, r);
  }
}
