/** The file sink: the `writeFile(dir, name, data)` callback that the
    builders call for every file, which may fail. */
module Output {
  import opened Common

  datatype FileWrite = FileWrite(dir: string, name: string, data: Bytes)

  /** What a sequence of writes leaves behind: the writes that succeeded and
      the write that failed, if any. */
  datatype Outcome = Outcome(written: seq<FileWrite>, failure: Option<FileWrite>)

  /** Every write of `ws` is one the file system accepts. */
  predicate AllAccepted(fails: FileWrite -> bool, ws: seq<FileWrite>) {
    forall i :: 0 <= i < |ws| ==> !fails(ws[i])
  }

  /** Writes performed in order, stopping at the first one that fails. */
  function Perform(fails: FileWrite -> bool, ws: seq<FileWrite>): (o: Outcome)
    ensures |o.written| <= |ws| && o.written == ws[..|o.written|] && AllAccepted(fails, o.written)
    ensures o.failure.None? <==> forall i :: 0 <= i < |ws| ==> !fails(ws[i])
    ensures o.failure.None? ==> o.written == ws
    ensures o.failure.Some? ==> |o.written| < |ws| && o.failure.value == ws[|o.written|] && fails(o.failure.value)
  {
    if ws == [] then Outcome([], None)
    else if fails(ws[0]) then Outcome([], Some(ws[0]))
    else
      var o := Perform(fails, ws[1..]);
      assert forall i :: 1 <= i < |ws| ==> ws[i] == ws[1..][i - 1];
      Outcome([ws[0]] + o.written, o.failure)
  }

  /** The error a failed write returns. */
  function FailureError(o: Outcome): Option<Error> {
    match o.failure
    case None => None
    case Some(w) => Some(WriteFailed(w.dir, w.name))
  }

  /** Performing two batches is performing the first and, if all of it
      succeeded, the second. */
  lemma {:induction false} PerformAppend(fails: FileWrite -> bool, a: seq<FileWrite>, b: seq<FileWrite>)
    ensures Perform(fails, a + b)
            == if Perform(fails, a).failure.Some? then Perform(fails, a)
               else Outcome(a + Perform(fails, b).written, Perform(fails, b).failure)
    decreases |a|
  {
    if a != [] {
      assert (a + b)[1..] == a[1..] + b;
      PerformAppend(fails, a[1..], b);
    } else {
      assert a + b == b;
    }
  }

  /** A failure inside the middle batch decides the outcome of all three. */
  lemma PerformFailsWithin(fails: FileWrite -> bool, a: seq<FileWrite>, b: seq<FileWrite>, c: seq<FileWrite>)
    requires Perform(fails, a).failure.None? && Perform(fails, b).failure.Some?
    ensures Perform(fails, a + b + c) == Outcome(a + Perform(fails, b).written, Perform(fails, b).failure)
  {
    PerformAppend(fails, a + b, c);
    PerformAppend(fails, a, b);
  }

  /** Two batches that both succeed succeed together. */
  lemma PerformSucceedsBoth(fails: FileWrite -> bool, a: seq<FileWrite>, b: seq<FileWrite>)
    requires Perform(fails, a).failure.None? && Perform(fails, b).failure.None?
    ensures Perform(fails, a + b) == Outcome(a + b, None)
  {
    PerformAppend(fails, a, b);
  }

  /** The record after the batch `mine`, written after the batches `done`
      that all succeeded and before the batches `rest`: a failure in `mine`
      is the failure of the whole run, else `done + mine` all succeeded. */
  lemma PerformStep(fails: FileWrite -> bool, base: seq<FileWrite>, done: seq<FileWrite>, mine: seq<FileWrite>,
                    rest: seq<FileWrite>, after: seq<FileWrite>)
    requires Perform(fails, done).failure.None?
    requires after == base + done + Perform(fails, mine).written
    ensures Perform(fails, mine).failure.Some? ==>
              var o := Perform(fails, done + mine + rest);
              after == base + o.written && FailureError(o) == FailureError(Perform(fails, mine))
    ensures Perform(fails, mine).failure.None? ==>
              after == base + (done + mine) && Perform(fails, done + mine).failure.None?
  {
    var o := Perform(fails, mine);
    if o.failure.Some? {
      PerformFailsWithin(fails, done, mine, rest);
      ConcatAssoc(base, done, o.written);
    } else {
      PerformSucceedsBoth(fails, done, mine);
      ConcatAssoc(base, done, mine);
    }
  }

  /** Writes that all succeed up to a failing one. */
  lemma {:induction false} PerformStops(fails: FileWrite -> bool, ws: seq<FileWrite>, k: nat)
    requires k < |ws| && fails(ws[k])
    requires forall i :: 0 <= i < k ==> !fails(ws[i])
    ensures Perform(fails, ws) == Outcome(ws[..k], Some(ws[k]))
    decreases k
  {
    if k > 0 {
      assert !fails(ws[0]);
      assert forall i :: 0 <= i < k - 1 ==> ws[1..][i] == ws[i + 1];
      PerformStops(fails, ws[1..], k - 1);
      assert ws[..k] == [ws[0]] + ws[1..][..k - 1];
    }
  }

  /** The record after one more successful write. */
  lemma WrittenExtend(before: seq<FileWrite>, ws: seq<FileWrite>, i: nat, w: FileWrite)
    requires i < |ws| && ws[i] == w
    ensures before + ws[..i] + [w] == before + ws[..i + 1]
  {
    assert ws[..i + 1] == ws[..i] + [w];
  }

  /** One more write the file system accepts. */
  lemma PassesExtend(fails: FileWrite -> bool, ws: seq<FileWrite>, i: nat)
    requires i < |ws| && !fails(ws[i])
    requires forall k :: 0 <= k < i ==> !fails(ws[k])
    ensures forall k :: 0 <= k < i + 1 ==> !fails(ws[k])
  {
  }

  /** The sink: `fails` says which writes the file system refuses; the
      writes it accepted are recorded in order. */
  class Sink {
    const fails: FileWrite -> bool
    var written: seq<FileWrite>

    constructor (fails: FileWrite -> bool)
      ensures this.fails == fails && written == []
    {
      this.fails := fails;
      written := [];
    }

    method WriteFile(dir: string, name: string, data: Bytes) returns (ok: bool)
      modifies this
      ensures ok == !fails(FileWrite(dir, name, data))
      ensures written == old(written) + if ok then [FileWrite(dir, name, data)] else []
    {
      ok := !fails(FileWrite(dir, name, data));
      if ok {
        written := written + [FileWrite(dir, name, data)];
      }
    }
  }
}
