/** Which bytes of a connection belong to which `send`, when a short count is
    taken for success (desktop/server/src/tcpservice.cpp:122-132). */
module Wire {
  import opened Arithmetic
  import opened Transport

  /** A byte's place: the send that moved it and its offset in the frame. */
  datatype Tag = Tag(send: nat, off: nat)

  function Row(j: nat, len: nat): (r: seq<Tag>)
    ensures |r| == len && forall o :: 0 <= o < len ==> r[o] == Tag(j, o)
  {
    seq(len, o requires 0 <= o => Tag(j, o))
  }

  /** The tags of all bytes on the wire, in order. */
  function Tags(sent: seq<Sending>): seq<Tag> {
    if sent == [] then []
    else var k := |sent| - 1; Tags(sent[..k]) + Row(k, sent[k].len)
  }

  function Total(sent: seq<Sending>): nat {
    if sent == [] then 0 else Total(sent[..|sent| - 1]) + sent[|sent| - 1].len
  }

  /** The sends before the first one that did not move `n` bytes. */
  function Whole(n: nat, sent: seq<Sending>): (m: nat)
    ensures m <= |sent|
    ensures forall j :: 0 <= j < m ==> sent[j].len == n
    ensures m < |sent| ==> sent[m].len != n
  {
    if sent == [] then 0
    else
      var k := |sent| - 1;
      var m := Whole(n, sent[..k]);
      if m == k && sent[k].len == n then k + 1 else m
  }

  ghost predicate Proper(n: nat, sent: seq<Sending>) {
    forall j :: 0 <= j < |sent| ==> 1 <= sent[j].len <= n
  }

  /** Block `b` of the wire is the frame of one send. */
  ghost predicate OneSend(n: nat, tags: seq<Tag>, b: nat) {
    exists j: nat :: IsRow(n, tags, b, j)
  }

  ghost predicate IsRow(n: nat, tags: seq<Tag>, b: nat, j: nat) {
    0 <= n * b && n * b + n <= |tags| && tags[n * b..n * b + n] == Row(j, n)
  }

  /** Too few bytes follow the first short send to complete its block. */
  predicate FewFollow(n: nat, sent: seq<Sending>) {
    var m := Whole(n, sent);
    m == |sent| || Total(sent[m + 1..]) < n - sent[m].len
  }

  // ---- Places --------------------------------------------------------------

  lemma {:induction false} TagAt(sent: seq<Sending>, j: nat, o: nat)
    requires j < |sent| && o < sent[j].len
    ensures |Tags(sent)| == Total(sent)
    ensures Total(sent[..j]) + o < |Tags(sent)| && Tags(sent)[Total(sent[..j]) + o] == Tag(j, o)
  {
    var k := |sent| - 1;
    TagCount(sent[..k]);
    if j < k {
      TagAt(sent[..k], j, o);
      assert sent[..k][..j] == sent[..j];
    }
  }

  lemma {:induction false} TagCount(sent: seq<Sending>)
    ensures |Tags(sent)| == Total(sent)
  {
    if sent != [] { TagCount(sent[..|sent| - 1]); }
  }

  lemma {:induction false} TotalSplit(sent: seq<Sending>, i: nat)
    requires i <= |sent|
    ensures Total(sent) == Total(sent[..i]) + Total(sent[i..])
  {
    if i == |sent| {
      assert sent[..i] == sent;
    } else {
      var k := |sent| - 1;
      TotalSplit(sent[..k], i);
      assert sent[..k][..i] == sent[..i] && sent[..k][i..] == sent[i..][..|sent[i..]| - 1];
    }
  }

  lemma {:induction false} WholeTotal(n: nat, sent: seq<Sending>, j: nat)
    requires j <= Whole(n, sent)
    ensures Total(sent[..j]) == n * j
  {
    if j > 0 {
      WholeTotal(n, sent, j - 1);
      assert sent[..j][..j - 1] == sent[..j - 1];
      assert n * j == n * (j - 1) + n;
    }
  }

  lemma TotalParts(n: nat, sent: seq<Sending>)
    ensures var m := Whole(n, sent);
            Total(sent) == n * m + if m == |sent| then 0 else sent[m].len + Total(sent[m + 1..])
  {
    var m := Whole(n, sent);
    WholeTotal(n, sent, m);
    if m == |sent| {
      assert sent[..m] == sent;
    } else {
      TotalSplit(sent, m + 1);
      assert sent[..m + 1][..m] == sent[..m];
    }
  }

  // ---- Blocks --------------------------------------------------------------

  lemma RowBefore(n: nat, sent: seq<Sending>, b: nat)
    requires n > 0 && b < Whole(n, sent)
    ensures IsRow(n, Tags(sent), b, b)
  {
    WholeTotal(n, sent, b);
    TagAt(sent, b, n - 1);
    forall o | 0 <= o < n ensures Tags(sent)[n * b + o] == Tag(b, o) { TagAt(sent, b, o); }
    assert Tags(sent)[n * b..n * b + n] == Row(b, n);
  }

  /** The block that the first short send begins, once completed, mixes two sends. */
  lemma MixedBlock(n: nat, sent: seq<Sending>)
    requires Proper(n, sent) && Whole(n, sent) < |sent|
    ensures !OneSend(n, Tags(sent), Whole(n, sent))
  {
    var m := Whole(n, sent);
    forall j: nat ensures !IsRow(n, Tags(sent), m, j) {
      if IsRow(n, Tags(sent), m, j) {
        var k := sent[m].len;
        var block := Tags(sent)[n * m..n * m + n];
        WholeTotal(n, sent, m);
        TagAt(sent, m, 0);
        assert block[0] == Tag(m, 0) && block[k] == Tag(j, k);
        Follows(n, sent);
        assert false;
      }
    }
  }

  lemma Follows(n: nat, sent: seq<Sending>)
    requires Proper(n, sent) && Whole(n, sent) < |sent|
    ensures var m := Whole(n, sent);
            n * m + n <= |Tags(sent)| ==> Tags(sent)[n * m + sent[m].len] == Tag(m + 1, 0)
  {
    var m := Whole(n, sent);
    TagCount(sent);
    TotalParts(n, sent);
    if m + 1 < |sent| {
      TagAt(sent, m + 1, 0);
      WholeTotal(n, sent, m);
      assert sent[..m + 1][..m] == sent[..m];
    } else {
      assert sent[m + 1..] == [];
    }
  }

  /** The first `count` blocks are the frames of one send each exactly when all of
      them lie before the first short send. */
  lemma BlocksExact(n: nat, sent: seq<Sending>, count: nat)
    requires n > 0 && Proper(n, sent)
    ensures (forall b: nat :: b < count ==> OneSend(n, Tags(sent), b)) <==>
            count <= Whole(n, sent)
  {
    var m := Whole(n, sent);
    forall b: nat | b < m ensures OneSend(n, Tags(sent), b) { RowBefore(n, sent, b); }
    if m < count {
      if m < |sent| { MixedBlock(n, sent); } else { PastTheEnd(n, sent); }
      assert !OneSend(n, Tags(sent), m);
    }
  }

  lemma PastTheEnd(n: nat, sent: seq<Sending>)
    requires n > 0 && Whole(n, sent) == |sent|
    ensures !OneSend(n, Tags(sent), |sent|)
  {
    TagCount(sent);
    TotalParts(n, sent);
  }

  /** Every complete block of the wire is the frame of one send if and only if, on
      this connection, fewer than n - k bytes follow the first short send of k. */
  lemma FramingExact(n: nat, sent: seq<Sending>)
    requires n > 0 && Proper(n, sent)
    ensures (forall b: nat :: n * b + n <= |Tags(sent)| ==> OneSend(n, Tags(sent), b)) <==> FewFollow(n, sent)
  {
    var m := Whole(n, sent);
    TagCount(sent);
    TotalParts(n, sent);
    if FewFollow(n, sent) {
      forall b: nat | n * b + n <= |Tags(sent)| ensures OneSend(n, Tags(sent), b) {
        if b < m { RowBefore(n, sent, b); } else { AtMost(n, m, b); assert false; }
      }
    } else {
      MixedBlock(n, sent);
      assert n * m + n <= |Tags(sent)| && !OneSend(n, Tags(sent), m);
    }
  }

  /** Then no more blocks can have been received than precede it. */
  lemma Reach(n: nat, sent: seq<Sending>, p: nat)
    requires n > 0 && Proper(n, sent) && FewFollow(n, sent) && n * p <= Total(sent)
    ensures p <= Whole(n, sent)
  {
    var m := Whole(n, sent);
    TotalParts(n, sent);
    if p > m {
      AtMost(n, m + 1, p);
      OneMore(n, m);
      assert false;
    }
  }

  /** Closing the connection on a short count would do: nothing follows it then. */
  lemma ClosingSuffices(n: nat, sent: seq<Sending>)
    requires Proper(n, sent) && forall j :: 0 <= j < |sent| - 1 ==> sent[j].len == n
    ensures FewFollow(n, sent)
  {
    var m := Whole(n, sent);
    if m < |sent| { assert m == |sent| - 1 && sent[m + 1..] == []; }
  }

  /** Growing a history of sends. */
  lemma WholeGrows(n: nat, sent: seq<Sending>, x: Sending)
    ensures var m := Whole(n, sent);
            Whole(n, sent + [x]) == if m == |sent| && x.len == n then m + 1 else m
    ensures Tags(sent + [x]) == Tags(sent) + Row(|sent|, x.len)
    ensures Total(sent + [x]) == Total(sent) + x.len
  {
    assert (sent + [x])[..|sent|] == sent;
  }
}
