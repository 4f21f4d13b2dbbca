/** The external-effects ledger: an intent is appended before every network call and an
    outcome after it. A process may die at any point and any append may fail. Calls of one
    task are assumed not to overlap: a run is a list of posts, one after the other. */
module Ledger {
  import opened Domain

  /** `kind|target|v<packet version>`. */
  datatype Key = Key(kind: string, target: string, version: nat)

  datatype EffectStatus = Pending | Failed | Done | Unknown
  datatype Record = Record(key: Key, status: EffectStatus, attempt: nat)

  /** What became of an append: `StoredThenError` is a record that reached the file although
      the append reported an error (the sync after the write failed). */
  datatype Append = Stored | StoredThenError | Lost

  datatype Crash = Survives | DiesBeforeCall | DiesAfterCall

  /** What the world does to one post. `read` is None when the log is read back in full;
      Some(n) when reading stops with an error after n records, which the program ignores. */
  datatype Fate = Fate(read: Option<nat>, note: Append, intent: Append, crash: Crash, callOk: bool, outcome: Append)

  datatype Reply = Delivered | AlreadyDelivered | Refused | IntentNotStored | CallFailed | OutcomeNotStored | Died

  predicate Succeeded(r: Reply) {
    r.Delivered? || r.AlreadyDelivered?
  }

  // ---------- specification ----------

  /** `sent` is what the remote service saw: one entry per network call. */
  datatype Book = Book(log: seq<Record>, sent: seq<Key>)

  function LastOf(log: seq<Record>, key: Key): Option<Record> {
    if log == [] then None
    else if log[|log| - 1].key == key then Some(log[|log| - 1])
    else LastOf(log[..|log| - 1], key)
  }

  /** The last thing recorded about `key` is a delivery. */
  predicate Delivers(log: seq<Record>, key: Key) {
    LastOf(log, key).Some? && LastOf(log, key).value.status.Done?
  }

  function Put(log: seq<Record>, r: Record, a: Append): seq<Record> {
    if a.Lost? then log else log + [r]
  }

  function ReadBack(log: seq<Record>, read: Option<nat>): seq<Record> {
    if read.Some? && read.value < |log| then log[..read.value] else log
  }

  predicate Blocks(prev: Option<Record>) {
    prev.Some? && !prev.value.status.Failed?
  }

  function NextAttempt(prev: Option<Record>): nat {
    if prev.Some? then prev.value.attempt + 1 else 1
  }

  function Posted(b: Book, key: Key, f: Fate): Book {
    var prev := LastOf(ReadBack(b.log, f.read), key);
    if Blocks(prev) then
      if prev.value.status.Done? then b
      else b.(log := Put(b.log, prev.value.(status := Unknown), f.note))
    else Attempted(b, Record(key, EffectStatus.Pending, NextAttempt(prev)), f)
  }

  /** One attempt: the intent, the call, the outcome. */
  function Attempted(b: Book, pending: Record, f: Fate): Book {
    var log1 := Put(b.log, pending, f.intent);
    if !f.intent.Stored? || f.crash.DiesBeforeCall? then b.(log := log1)
    else if f.crash.DiesAfterCall? then Book(log1, b.sent + [pending.key])
    else Book(Put(log1, Outcome(pending, f), f.outcome), b.sent + [pending.key])
  }

  function Outcome(pending: Record, f: Fate): Record {
    pending.(status := if f.callOk then EffectStatus.Done else EffectStatus.Failed)
  }

  /** The call is made: what is read back allows an attempt, and its intent is stored. */
  predicate WillCall(b: Book, key: Key, f: Fate) {
    !Blocks(LastOf(ReadBack(b.log, f.read), key)) && f.intent.Stored? && !f.crash.DiesBeforeCall?
  }

  /** The call is made, works, and its delivery is stored for good. */
  predicate DeliversNow(b: Book, key: Key, f: Fate) {
    WillCall(b, key, f) && f.crash.Survives? && f.callOk && f.outcome.Stored?
  }

  /** A delivery was read back, or there is one now. */
  predicate Settles(b: Book, key: Key, f: Fate) {
    Delivers(ReadBack(b.log, f.read), key) || DeliversNow(b, key, f)
  }

  /** What the caller is told. */
  function ReplyTo(b: Book, key: Key, f: Fate): (r: Reply)
    ensures r == AlreadyDelivered <==> Delivers(ReadBack(b.log, f.read), key)
    ensures r == Delivered <==> DeliversNow(b, key, f)
    ensures r == CallFailed <==> WillCall(b, key, f) && f.crash.Survives? && !f.callOk
    ensures r == OutcomeNotStored <==> WillCall(b, key, f) && f.crash.Survives? && f.callOk && !f.outcome.Stored?
  {
    var prev := LastOf(ReadBack(b.log, f.read), key);
    if Blocks(prev) then if prev.value.status.Done? then AlreadyDelivered else Refused
    else if !f.intent.Stored? then IntentNotStored
    else if !f.crash.Survives? then Died
    else if !f.callOk then CallFailed
    else if f.outcome.Stored? then Delivered else OutcomeNotStored
  }

  datatype Post = Post(key: Key, fate: Fate)

  function Run(b: Book, posts: seq<Post>): Book
    decreases |posts|
  {
    if posts == [] then b else Run(Posted(b, posts[0].key, posts[0].fate), posts[1..])
  }

  function Calls(sent: seq<Key>, key: Key): nat {
    if sent == [] then 0
    else Calls(sent[..|sent| - 1], key) + if sent[|sent| - 1] == key then 1 else 0
  }

  function Failures(log: seq<Record>, key: Key): nat {
    if log == [] then 0
    else Failures(log[..|log| - 1], key)
         + if log[|log| - 1].key == key && log[|log| - 1].status.Failed? then 1 else 0
  }

  // ---------- the program ----------

  class EffectLog {
    var log: seq<Record>
    var sent: seq<Key>

    constructor ()
      ensures Contents() == Book([], [])
    {
      log, sent := [], [];
    }

    function Contents(): Book
      reads this
    {
      Book(log, sent)
    }

    method AddEffect(r: Record, a: Append) returns (ok: bool)
      modifies this`log
      ensures log == Put(old(log), r, a) && ok == a.Stored?
    {
      if !a.Lost? { log := log + [r]; }
      ok := a.Stored?;
    }

    method LastEffect(key: Key, read: Option<nat>) returns (last: Option<Record>)
      ensures last == LastOf(ReadBack(log, read), key)
    {
      var effs := ReadBack(log, read);
      last := None;
      for i := 0 to |effs|
        invariant last == LastOf(effs[..i], key)
      {
        assert effs[..i + 1][..i] == effs[..i];
        if effs[i].key == key { last := Some(effs[i]); }
      }
      assert effs[..|effs|] == effs;
    }

    method Post(key: Key, f: Fate) returns (reply: Reply)
      modifies this
      ensures Contents() == Posted(old(Contents()), key, f)
      ensures reply == ReplyTo(old(Contents()), key, f)
      ensures Succeeded(reply) <==> Settles(old(Contents()), key, f)
      ensures Succeeded(reply) && f.read.None? ==> Delivers(log, key)
    {
      var prev := LastEffect(key, f.read);
      if prev.Some? && prev.value.status.Done? { return AlreadyDelivered; }
      if prev.Some? && (prev.value.status.Pending? || prev.value.status.Unknown?) {
        var noted := AddEffect(prev.value.(status := Unknown), f.note);
        return Refused;
      }
      var attempt := 1;
      if prev.Some? { attempt := prev.value.attempt + 1; }
      var eff := Record(key, EffectStatus.Pending, attempt);
      var ok := AddEffect(eff, f.intent);
      if !ok { return IntentNotStored; }
      if f.crash.DiesBeforeCall? { return Died; }
      sent := sent + [key];
      if f.crash.DiesAfterCall? { return Died; }
      if !f.callOk {
        ok := AddEffect(eff.(status := EffectStatus.Failed), f.outcome);
        return CallFailed;
      }
      ok := AddEffect(eff.(status := EffectStatus.Done), f.outcome);
      return if ok then Delivered else OutcomeNotStored;
    }

    /** The commit status first; the comment if and only if the status is settled. */
    method PostGitHubStatus(commit: string, pullRequest: string, version: nat, f: Fate, g: Fate) returns (reply: Reply)
      modifies this
      ensures var status, comment := Key("github_status", commit, version), Key("github_comment", pullRequest, version);
        var b := old(Contents());
        && Contents() == (if Settles(b, status, f) then Posted(Posted(b, status, f), comment, g)
                          else Posted(b, status, f))
        && (Succeeded(reply) <==> Settles(b, status, f) && Settles(Posted(b, status, f), comment, g))
        && (f.read.None? && Calls(sent, comment) > Calls(old(sent), comment) ==> Delivers(log, status))
        && (f.read.None? && g.read.None? && Succeeded(reply) ==> Delivers(log, status) && Delivers(log, comment))
    {
      var status, comment := Key("github_status", commit, version), Key("github_comment", pullRequest, version);
      ghost var b0 := Contents();
      reply := Post(status, f);
      ghost var b1 := Contents();
      OtherKeysUntouched(b0, status, f, comment);
      if !Succeeded(reply) { return; }
      reply := Post(comment, g);
      OtherKeysUntouched(b1, comment, g, status);
    }
  }

  // ---------- theorems ----------

  lemma Snoc<T>(s: seq<T>, x: T)
    ensures (s + [x])[..|s + [x]| - 1] == s
  {
  }

  lemma {:induction false} PutLast(log: seq<Record>, r: Record, a: Append, key: Key)
    ensures LastOf(Put(log, r, a), key) == if !a.Lost? && r.key == key then Some(r) else LastOf(log, key)
    ensures Failures(Put(log, r, a), key)
            == Failures(log, key) + if !a.Lost? && r.key == key && r.status.Failed? then 1 else 0
  {
    Snoc(log, r);
  }

  lemma {:induction false} CallsAdd(sent: seq<Key>, k: Key, key: Key)
    ensures Calls(sent + [k], key) == Calls(sent, key) + if k == key then 1 else 0
  {
    Snoc(sent, k);
  }

  /** What the program manages to read back says the same about the key as the whole ledger. */
  predicate Informed(b: Book, p: Post) {
    LastOf(ReadBack(b.log, p.fate.read), p.key) == LastOf(b.log, p.key)
  }

  /** Exactly when the remote service is called: the records the program managed to read
      back end in no attempt or a failed one, and the intent is safely stored. */
  lemma CallsExactly(b: Book, key: Key, f: Fate)
    ensures Calls(Posted(b, key, f).sent, key) == Calls(b.sent, key) + if WillCall(b, key, f) then 1 else 0
  {
    CallsAdd(b.sent, key, key);
  }

  /** Both logs say the same about `key`. */
  predicate SameLog(log: seq<Record>, log': seq<Record>, key: Key) {
    LastOf(log', key) == LastOf(log, key) && Failures(log', key) == Failures(log, key)
  }

  predicate SameFor(b: Book, b': Book, key: Key) {
    SameLog(b.log, b'.log, key) && Calls(b'.sent, key) == Calls(b.sent, key)
  }

  lemma {:induction false} PutLeavesOthers(log: seq<Record>, r: Record, a: Append, other: Key)
    requires other != r.key
    ensures SameLog(log, Put(log, r, a), other)
  {
    PutLast(log, r, a, other);
  }

  lemma {:induction false} LoggedLeavesOthers(log: seq<Record>, r: Record, a: Append, r': Record, a': Append, other: Key)
    requires other != r.key && other != r'.key
    ensures SameLog(log, Put(Put(log, r, a), r', a'), other)
  {
    PutLeavesOthers(log, r, a, other);
    PutLeavesOthers(Put(log, r, a), r', a', other);
  }

  lemma {:induction false} CalledLeavesOthers(b: Book, pending: Record, f: Fate, other: Key)
    requires other != pending.key
    ensures SameFor(b, Attempted(b, pending, f), other)
  {
    CallsAdd(b.sent, pending.key, other);
    if f.intent.Stored? && f.crash.Survives? {
      LoggedLeavesOthers(b.log, pending, f.intent, Outcome(pending, f), f.outcome, other);
    } else {
      PutLeavesOthers(b.log, pending, f.intent, other);
    }
  }

  /** Effects do not interfere with one another. */
  lemma {:induction false} OtherKeysUntouched(b: Book, key: Key, f: Fate, other: Key)
    requires other != key
    ensures SameFor(b, Posted(b, key, f), other)
  {
    var prev := LastOf(ReadBack(b.log, f.read), key);
    if Blocks(prev) {
      LastOfKey(ReadBack(b.log, f.read), key);
      PutLeavesOthers(b.log, prev.value.(status := Unknown), f.note, other);
    } else {
      CalledLeavesOthers(b, Record(key, EffectStatus.Pending, NextAttempt(prev)), f, other);
    }
  }

  lemma {:induction false} LastOfKey(log: seq<Record>, key: Key)
    ensures LastOf(log, key).Some? ==> LastOf(log, key).value.key == key
  {
    if log != [] { LastOfKey(log[..|log| - 1], key); }
  }

  /** What the last record of a key says about the calls made and the failures recorded. */
  predicate Accounted(last: Option<Record>, calls: nat, failures: nat) {
    if last.None? then calls == 0 && failures == 0
    else
      match last.value.status
      case Failed => calls == failures == last.value.attempt
      case Done => calls == last.value.attempt == failures + 1
      case _ => last.value.attempt == failures + 1 && (calls == failures || calls == failures + 1)
  }

  predicate Sound(b: Book, key: Key) {
    Accounted(LastOf(b.log, key), Calls(b.sent, key), Failures(b.log, key))
  }

  /** An attempt whose outcome is not recorded leaves at most its intent. */
  lemma {:induction false} OpenCounts(b: Book, pending: Record, f: Fate)
    requires pending.status.Pending? && !(f.intent.Stored? && f.crash.Survives?)
    ensures var log, key := Attempted(b, pending, f).log, pending.key;
      && Failures(log, key) == Failures(b.log, key)
      && LastOf(log, key) == if f.intent.Lost? then LastOf(b.log, key) else Some(pending)
  {
    PutLast(b.log, pending, f.intent, pending.key);
  }

  lemma {:induction false} ClosedCounts(b: Book, pending: Record, f: Fate)
    requires pending.status.Pending? && f.intent.Stored? && f.crash.Survives?
    ensures var log, key := Attempted(b, pending, f).log, pending.key;
      && Failures(log, key) == Failures(b.log, key) + (if !f.outcome.Lost? && !f.callOk then 1 else 0)
      && LastOf(log, key) == Some(if f.outcome.Lost? then pending else Outcome(pending, f))
  {
    PutLast(b.log, pending, f.intent, pending.key);
    PutLast(Put(b.log, pending, f.intent), Outcome(pending, f), f.outcome, pending.key);
  }

  lemma AttemptCalls(b: Book, pending: Record, f: Fate)
    ensures Calls(Attempted(b, pending, f).sent, pending.key)
            == Calls(b.sent, pending.key) + if f.intent.Stored? && !f.crash.DiesBeforeCall? then 1 else 0
  {
    CallsAdd(b.sent, pending.key, pending.key);
  }

  /** What one attempt adds to the calls and the log of its key. */
  lemma {:induction false} AttemptCounts(b: Book, pending: Record, f: Fate)
    requires pending.status.Pending?
    ensures var b', key := Attempted(b, pending, f), pending.key;
      var calls := f.intent.Stored? && !f.crash.DiesBeforeCall?;
      var ends := calls && f.crash.Survives? && !f.outcome.Lost?;
      && Calls(b'.sent, key) == Calls(b.sent, key) + (if calls then 1 else 0)
      && Failures(b'.log, key) == Failures(b.log, key) + (if ends && !f.callOk then 1 else 0)
      && LastOf(b'.log, key) == (if ends then Some(Outcome(pending, f))
                                 else if f.intent.Lost? then LastOf(b.log, key) else Some(pending))
  {
    AttemptCalls(b, pending, f);
    if f.intent.Stored? && f.crash.Survives? { ClosedCounts(b, pending, f); } else { OpenCounts(b, pending, f); }
  }

  lemma {:induction false} CalledSound(b: Book, key: Key, f: Fate)
    requires Sound(b, key) && Informed(b, Post(key, f)) && !Blocks(LastOf(b.log, key))
    ensures Sound(Posted(b, key, f), key)
  {
    AttemptCounts(b, Record(key, EffectStatus.Pending, NextAttempt(LastOf(b.log, key))), f);
  }

  lemma {:induction false} PostedSound(b: Book, key: Key, f: Fate)
    requires Sound(b, key) && Informed(b, Post(key, f))
    ensures Sound(Posted(b, key, f), key)
  {
    var prev := LastOf(b.log, key);
    if Blocks(prev) {
      LastOfKey(b.log, key);
      PutLast(b.log, prev.value.(status := Unknown), f.note, key);
    } else {
      CalledSound(b, key, f);
    }
  }

  /** Every post of the run reads the truth about its key. */
  predicate AlwaysInformed(b: Book, posts: seq<Post>)
    decreases |posts|
  {
    posts != [] ==>
      Informed(b, posts[0]) && AlwaysInformed(Posted(b, posts[0].key, posts[0].fate), posts[1..])
  }

  /** In particular when the ledger can always be read in full. */
  lemma {:induction false} FullReadsInform(b: Book, posts: seq<Post>)
    requires forall p | p in posts :: p.fate.read.None?
    ensures AlwaysInformed(b, posts)
    decreases |posts|
  {
    if posts != [] {
      assert posts[0] in posts;
      FullReadsInform(Posted(b, posts[0].key, posts[0].fate), posts[1..]);
    }
  }

  lemma {:induction false} RunSound(b: Book, posts: seq<Post>, key: Key)
    requires Sound(b, key) && AlwaysInformed(b, posts)
    ensures Sound(Run(b, posts), key)
    decreases |posts|
  {
    if posts != [] {
      var p := posts[0];
      if p.key == key { PostedSound(b, key, p.fate); } else { OtherKeysUntouched(b, p.key, p.fate, key); }
      RunSound(Posted(b, p.key, p.fate), posts[1..], key);
    }
  }

  /** Whatever crashes and failing appends occur, an effect is called at most once more than
      it is recorded to have failed, and its attempt number counts the calls: it is the number
      of calls, or one more while the outcome of the last attempt is not known. */
  lemma AtMostOncePerFailure(posts: seq<Post>, key: Key)
    requires AlwaysInformed(Book([], []), posts)
    ensures var b := Run(Book([], []), posts);
      && Calls(b.sent, key) <= 1 + Failures(b.log, key)
      && var last := LastOf(b.log, key);
         if last.None? then Calls(b.sent, key) == 0
         else Calls(b.sent, key) <= last.value.attempt <= Calls(b.sent, key) + 1
              && (last.value.status.Done? || last.value.status.Failed? ==> Calls(b.sent, key) == last.value.attempt)
  {
    RunSound(Book([], []), posts, key);
  }

  lemma {:induction false} BlockedPost(b: Book, key: Key, p: Post)
    requires Blocks(LastOf(b.log, key)) && Informed(b, p)
    ensures var b' := Posted(b, p.key, p.fate);
      && Calls(b'.sent, key) == Calls(b.sent, key) && Blocks(LastOf(b'.log, key))
      && LastOf(b'.log, key).value.attempt == LastOf(b.log, key).value.attempt
      && (LastOf(b.log, key).value.status.Done? <==> LastOf(b'.log, key).value.status.Done?)
      && (LastOf(b.log, key).value.status.Unknown? ==> LastOf(b'.log, key).value.status.Unknown?)
      && (p.key == key && !p.fate.note.Lost? ==> !LastOf(b'.log, key).value.status.Pending?)
  {
    LastOfKey(b.log, key);
    if p.key == key {
      PutLast(b.log, LastOf(b.log, key).value.(status := Unknown), p.fate.note, key);
    } else {
      OtherKeysUntouched(b, p.key, p.fate, key);
    }
  }

  /** After a recorded delivery, or an attempt whose outcome was never recorded, no call is
      ever made again: a delivery stays a delivery, an unknown outcome stays unknown. */
  lemma {:induction false} BlockedForGood(b: Book, posts: seq<Post>, key: Key)
    requires Blocks(LastOf(b.log, key)) && AlwaysInformed(b, posts)
    ensures var b' := Run(b, posts);
      && Calls(b'.sent, key) == Calls(b.sent, key) && Blocks(LastOf(b'.log, key))
      && LastOf(b'.log, key).value.attempt == LastOf(b.log, key).value.attempt
      && (LastOf(b.log, key).value.status.Done? <==> LastOf(b'.log, key).value.status.Done?)
      && (LastOf(b.log, key).value.status.Unknown? ==> LastOf(b'.log, key).value.status.Unknown?)
    decreases |posts|
  {
    if posts != [] {
      BlockedPost(b, key, posts[0]);
      BlockedForGood(Posted(b, posts[0].key, posts[0].fate), posts[1..], key);
    }
  }

  /** A pending attempt without an outcome turns into unknown at the first retry whose
      note is kept, and stays there without another call. */
  lemma PendingBecomesUnknown(b: Book, retry: Post, posts: seq<Post>, key: Key)
    requires LastOf(b.log, key).Some? && LastOf(b.log, key).value.status.Pending?
    requires retry.key == key && Informed(b, retry) && !retry.fate.note.Lost?
    requires AlwaysInformed(Posted(b, key, retry.fate), posts)
    ensures var b' := Run(Posted(b, key, retry.fate), posts);
      && LastOf(b'.log, key).Some? && LastOf(b'.log, key).value.status.Unknown?
      && Calls(b'.sent, key) == Calls(b.sent, key)
  {
    BlockedPost(b, key, retry);
    BlockedForGood(Posted(b, key, retry.fate), posts, key);
  }

  /** The limit of the promise: the error of reading the ledger back is ignored. A delivered
      effect is repeated exactly if the records that are read back end in nothing or in a
      failure, and the new intent is stored. */
  lemma RepeatsExactly(b: Book, key: Key, f: Fate)
    requires Delivers(b.log, key)
    ensures Calls(Posted(b, key, f).sent, key) > Calls(b.sent, key) <==> WillCall(b, key, f)
    ensures WillCall(b, key, f) ==> f.read.Some? && f.read.value < |b.log| && !Informed(b, Post(key, f))
    ensures f.read == Some(0) && f.intent.Stored? && f.crash.Survives? ==> WillCall(b, key, f)
  {
    CallsExactly(b, key, f);
    assert b.log != [];
  }

  /** From the start: an effect that is delivered twice, because the second post cannot read
      the ledger. */
  lemma UnreadableLedgerRepeats(key: Key)
    ensures var fine := Fate(None, Stored, Stored, Survives, true, Stored);
      Run(Book([], []), [Post(key, fine), Post(key, fine.(read := Some(0)))]).sent == [key, key]
  {
    var fine := Fate(None, Stored, Stored, Survives, true, Stored);
    var p, q := Post(key, fine), Post(key, fine.(read := Some(0)));
    var b1 := Posted(Book([], []), key, fine);
    assert b1.sent == [key];
    assert |b1.log| == 2;
    var b2 := Posted(b1, key, q.fate);
    assert ReadBack(b1.log, Some(0)) == [];
    assert b2.sent == [key, key];
    assert [p, q][1..] == [q] && [q][1..] == [];
    assert Run(Book([], []), [p, q]) == Run(b1, [q]) == Run(b2, []) == b2;
  }

  predicate CleanFate(f: Fate) {
    f.read.None? && f.intent.Stored? && f.crash.Survives? && f.callOk && f.outcome.Stored?
  }

  /** With nothing recorded yet and nothing failing, an effect is called once and delivered. */
  lemma CleanPost(b: Book, key: Key, f: Fate)
    requires LastOf(b.log, key).None? && CleanFate(f)
    ensures Settles(b, key, f) && Posted(b, key, f).sent == b.sent + [key] && Delivers(Posted(b, key, f).log, key)
  {
    AttemptCounts(b, Record(key, EffectStatus.Pending, 1), f);
  }

  /** So a first post of a status and its comment makes exactly these two calls, in this
      order, and delivers both. */
  lemma CleanStatus(b: Book, status: Key, comment: Key, f: Fate, g: Fate)
    requires status != comment && LastOf(b.log, status).None? && LastOf(b.log, comment).None?
    requires CleanFate(f) && CleanFate(g)
    ensures var b1 := Posted(b, status, f); var b2 := Posted(b1, comment, g);
      && Settles(b, status, f) && Settles(b1, comment, g)
      && b2.sent == b.sent + [status, comment] && Delivers(b2.log, status) && Delivers(b2.log, comment)
  {
    CleanPost(b, status, f);
    OtherKeysUntouched(b, status, f, comment);
    var b1 := Posted(b, status, f);
    CleanPost(b1, comment, g);
    OtherKeysUntouched(b1, comment, g, status);
  }
}
