/** How the log reaches a reader: Fetch pages and Subscribe streams. */
module Delivery {
  import opened Protocol
  import opened WorkerView

  datatype Message = Message(seqNo: nat, entry: Entry)

  /** One Fetch reply. */
  datatype Page = Page(messages: seq<Message>, nextSeq: nat)

  predicate Ordered(messages: seq<Message>) {
    forall i, j :: 0 <= i < j < |messages| ==> messages[i].seqNo < messages[j].seqNo
  }

  predicate FromLog(log: Log, messages: seq<Message>) {
    forall i :: 0 <= i < |messages| ==>
      1 <= messages[i].seqNo <= |log| && messages[i].entry == At(log, messages[i].seqNo)
  }

  /** Positions that hold nothing for the reader. */
  predicate AllForeign(log: Log, from: nat, end: nat) {
    forall s :: from < s <= end && 1 <= s <= |log| ==> At(log, s).payload.Foreign?
  }

  /** Every message for the reader after `from` and up to `end` is among `messages`. */
  predicate Complete(log: Log, from: nat, end: nat, messages: seq<Message>) {
    forall s :: from < s <= end && 1 <= s <= |log| && !At(log, s).payload.Foreign? ==> Delivers(messages, s)
  }

  predicate Delivers(messages: seq<Message>, s: nat) {
    exists i :: 0 <= i < |messages| && messages[i].seqNo == s
  }

  /** A page answers a Fetch from `cursor`: the messages from there to before `nextSeq`, in
      order; how far it goes is the server's choice. */
  predicate HonestPage(log: Log, cursor: nat, page: Page) {
    && 1 <= cursor < page.nextSeq && Ordered(page.messages) && FromLog(log, page.messages)
    && (forall i :: 0 <= i < |page.messages| ==> cursor <= page.messages[i].seqNo < page.nextSeq)
    && Complete(log, cursor - 1, page.nextSeq - 1, page.messages)
  }

  predicate HonestPages(log: Log, cursor: nat, pages: seq<Page>)
    decreases |pages|
  {
    pages == [] || (HonestPage(log, cursor, pages[0]) && HonestPages(log, pages[0].nextSeq, pages[1..]))
  }

  /** A stream opened at `from` delivers the log in order and without gaps after `from`,
      possibly replaying earlier messages first, and may break off anywhere. */
  predicate HonestStream(log: Log, from: nat, messages: seq<Message>) {
    && Ordered(messages) && FromLog(log, messages)
    && forall i :: 0 <= i < |messages| ==> Complete(log, from, messages[i].seqNo, messages)
  }

  /** Where the reader stands after the first `j` messages. */
  function Reached(from: nat, messages: seq<Message>, j: nat): nat
    requires j <= |messages|
  {
    if j == 0 || messages[j - 1].seqNo <= from then from else messages[j - 1].seqNo
  }

  lemma DeliveredBefore(from: nat, messages: seq<Message>, j: nat, s: nat)
    requires Ordered(messages) && j <= |messages| && Delivers(messages, s)
    requires j < |messages| ==> s < messages[j].seqNo
    ensures s <= Reached(from, messages, j)
  {
    var i :| 0 <= i < |messages| && messages[i].seqNo == s;
    assert i < j - 1 ==> messages[i].seqNo < messages[j - 1].seqNo;
  }

  /** Between two neighbouring messages of a gap-free delivery the log holds nothing for
      the reader. */
  lemma GapIsForeign(log: Log, from: nat, end: nat, messages: seq<Message>, j: nat, upTo: nat)
    requires Ordered(messages) && Complete(log, from, end, messages) && j <= |messages| && upTo <= end
    requires j < |messages| ==> upTo < messages[j].seqNo
    ensures AllForeign(log, Reached(from, messages, j), upTo)
  {
    forall s | Reached(from, messages, j) < s <= upTo && 1 <= s <= |log|
      ensures At(log, s).payload.Foreign?
    {
      if !At(log, s).payload.Foreign? {
        DeliveredBefore(from, messages, j, s);
      }
    }
  }

  function Min(a: nat, b: nat): nat {
    if a < b then a else b
  }

  // ---------------------------------------------------------------- folding the log

  lemma FoldStep(log: Log, cfg: Config, k: nat)
    requires 1 <= k <= |log|
    ensures Fold(log[..k], cfg) ==
            match Fold(log[..k - 1], cfg)
            case None => None
            case Some(v) => Accept(v, cfg, At(log, k), k, true)
  {
    assert log[..k][..k - 1] == log[..k - 1];
  }

  lemma {:induction false} FoldSkipsForeign(log: Log, cfg: Config, k: nat, m: nat)
    requires k <= m <= |log| && AllForeign(log, k, m)
    ensures Fold(log[..m], cfg) == Fold(log[..k], cfg)
    decreases m
  {
    if k < m {
      FoldSkipsForeign(log, cfg, k, m - 1);
      FoldStep(log, cfg, m);
      assert At(log, m).payload.Foreign?;
    }
  }

  lemma {:induction false} FoldStaysNone(log: Log, cfg: Config, k: nat, m: nat)
    requires k <= m <= |log| && Fold(log[..k], cfg).None?
    ensures Fold(log[..m], cfg).None?
    decreases m
  {
    if k < m {
      FoldStaysNone(log, cfg, k, m - 1);
      FoldStep(log, cfg, m);
    }
  }

  /** Reading the live entries `from + 1 .. end`. */
  function LiveFold(v: View, cfg: Config, log: Log, from: nat, end: nat): Option<View>
    requires end <= |log|
    decreases end
  {
    if end <= from then Some(v)
    else match LiveFold(v, cfg, log, from, end - 1)
      case None => None
      case Some(u) => Accept(u, cfg, At(log, end), end, false)
  }

  lemma {:induction false} LiveFoldSkipsForeign(v: View, cfg: Config, log: Log, from: nat, k: nat, m: nat)
    requires from <= k <= m <= |log| && AllForeign(log, k, m)
    ensures LiveFold(v, cfg, log, from, m) == LiveFold(v, cfg, log, from, k)
    decreases m
  {
    if k < m {
      LiveFoldSkipsForeign(v, cfg, log, from, k, m - 1);
      assert At(log, m).payload.Foreign?;
    }
  }

  lemma {:induction false} LiveFoldStaysNone(v: View, cfg: Config, log: Log, from: nat, k: nat, m: nat)
    requires from <= k <= m <= |log| && LiveFold(v, cfg, log, from, k).None?
    ensures LiveFold(v, cfg, log, from, m).None?
    decreases m
  {
    if k < m {
      LiveFoldStaysNone(v, cfg, log, from, k, m - 1);
    }
  }

  /** Reading in two sittings, wherever the first one broke off, is reading once. */
  lemma {:induction false} LiveFoldJoins(v: View, cfg: Config, log: Log, from: nat, mid: nat, end: nat)
    requires from <= mid <= end <= |log| && LiveFold(v, cfg, log, from, mid).Some?
    ensures LiveFold(v, cfg, log, from, end)
            == LiveFold(LiveFold(v, cfg, log, from, mid).value, cfg, log, mid, end)
    decreases end
  {
    if mid < end {
      LiveFoldJoins(v, cfg, log, from, mid, end - 1);
    }
  }

  // ---------------------------------------------------------------- a stream being read

  /** Having been given the first `j` messages, the reader that started in `v0` after seq
      `from` stands at `at` in `v`. */
  ghost predicate Streamed(v0: View, cfg: Config, log: Log, from: nat, messages: seq<Message>, j: nat,
                           at: nat, v: View) {
    && from <= |log| && HonestStream(log, from, messages) && j <= |messages|
    && at == Reached(from, messages, j) <= |log|
    && LiveFold(v0, cfg, log, from, at) == Some(v)
  }

  lemma ReplaySkipped(v0: View, cfg: Config, log: Log, from: nat, messages: seq<Message>, j: nat, at: nat, v: View)
    requires Streamed(v0, cfg, log, from, messages, j, at, v)
    requires j < |messages| && messages[j].seqNo <= at
    ensures Streamed(v0, cfg, log, from, messages, j + 1, at, v)
  {
  }

  /** The next new message is read where it stands in the log. */
  lemma NewMessageRead(v0: View, cfg: Config, log: Log, from: nat, messages: seq<Message>, j: nat, at: nat, v: View)
    requires Streamed(v0, cfg, log, from, messages, j, at, v)
    requires j < |messages| && at < messages[j].seqNo
    ensures var m := messages[j];
            match Accept(v, cfg, m.entry, m.seqNo, false)
            case Some(next) => Streamed(v0, cfg, log, from, messages, j + 1, m.seqNo, next)
            case None => LiveFold(v0, cfg, log, from, |log|).None?
  {
    var m := messages[j].seqNo;
    GapIsForeign(log, from, m, messages, j, m - 1);
    LiveFoldSkipsForeign(v0, cfg, log, from, at, m - 1);
    if Accept(v, cfg, messages[j].entry, m, false).None? {
      LiveFoldStaysNone(v0, cfg, log, from, m, |log|);
    }
  }

  // ---------------------------------------------------------------- a page being scanned

  /** Having taken the first `j` messages of `page`, the scan stands in `v`. */
  ghost predicate Scanned(cfg: Config, log: Log, cursor: nat, target: nat, page: Page, j: nat, v: View) {
    && 1 <= cursor <= target <= |log| && HonestPage(log, cursor, page) && j <= |page.messages|
    && Reached(cursor - 1, page.messages, j) <= target
    && Fold(log[..Reached(cursor - 1, page.messages, j)], cfg) == Some(v)
  }

  /** The scan takes the next message of a page where it would have read it in the log. */
  lemma NextScanned(cfg: Config, log: Log, cursor: nat, target: nat, page: Page, j: nat, v: View)
    requires Scanned(cfg, log, cursor, target, page, j, v)
    requires j < |page.messages| && page.messages[j].seqNo <= target
    ensures var m := page.messages[j];
            match Accept(v, cfg, m.entry, m.seqNo, true)
            case Some(next) => Scanned(cfg, log, cursor, target, page, j + 1, next)
            case None => Fold(log[..target], cfg).None?
  {
    var k, m := Reached(cursor - 1, page.messages, j), page.messages[j].seqNo;
    GapIsForeign(log, cursor - 1, page.nextSeq - 1, page.messages, j, m - 1);
    FoldSkipsForeign(log, cfg, k, m - 1);
    FoldStep(log, cfg, m);
    if Accept(v, cfg, page.messages[j].entry, m, true).None? {
      FoldStaysNone(log, cfg, m, target);
    }
  }

  /** What is left of a page after its last message is nothing. */
  lemma PageScanned(cfg: Config, log: Log, cursor: nat, target: nat, page: Page, j: nat, v: View)
    requires Scanned(cfg, log, cursor, target, page, j, v)
    requires j < |page.messages| ==> target < page.messages[j].seqNo
    ensures Fold(log[..Min(page.nextSeq - 1, target)], cfg) == Some(v)
  {
    var end := Min(page.nextSeq - 1, target);
    GapIsForeign(log, cursor - 1, page.nextSeq - 1, page.messages, j, end);
    FoldSkipsForeign(log, cfg, Reached(cursor - 1, page.messages, j), end);
  }

  // ---------------------------------------------------------------- one stream after the other

  /** A stream that was honest about the log of its time is honest about every later log. */
  lemma HonestLater(log: Log, more: Log, from: nat, messages: seq<Message>)
    requires HonestStream(log, from, messages) && log <= more
    ensures HonestStream(more, from, messages)
  {
    assert forall s :: 1 <= s <= |log| ==> At(more, s) == At(log, s);
    forall i | 0 <= i < |messages| ensures Complete(more, from, messages[i].seqNo, messages) {
      assert Complete(log, from, messages[i].seqNo, messages);
    }
  }

  /** Where the reader stands after the first `k` streams. */
  function ReachedAfter(from: nat, streams: seq<seq<Message>>, k: nat): nat
    requires k <= |streams|
  {
    if k == 0 then from
    else Reached(ReachedAfter(from, streams, k - 1), streams[k - 1], |streams[k - 1]|)
  }

  /** Each stream is opened where the one before broke off, and is honest about the log of
      its time; the logs grow towards `log`. */
  ghost predicate HonestStreams(logs: seq<Log>, log: Log, from: nat, streams: seq<seq<Message>>) {
    && from <= |log| && |logs| == |streams|
    && forall k: nat :: k < |streams| ==> HonestAt(logs, log, from, streams, k)
  }

  ghost predicate HonestAt(logs: seq<Log>, log: Log, from: nat, streams: seq<seq<Message>>, k: nat)
    requires k < |logs| == |streams|
  {
    logs[k] <= log && HonestStream(logs[k], ReachedAfter(from, streams, k), streams[k])
  }

  lemma NextStreamIsHonest(logs: seq<Log>, log: Log, from: nat, streams: seq<seq<Message>>, k: nat)
    requires HonestStreams(logs, log, from, streams) && k < |streams|
    ensures HonestStream(log, ReachedAfter(from, streams, k), streams[k])
  {
    assert HonestAt(logs, log, from, streams, k);
    HonestLater(logs[k], log, ReachedAfter(from, streams, k), streams[k]);
  }

  /** Having read the first `k` streams, the reader that started in `v0` stands at `at` in `v`. */
  ghost predicate StreamsRead(v0: View, cfg: Config, log: Log, from: nat, streams: seq<seq<Message>>, k: nat,
                              at: nat, v: View) {
    && k <= |streams| && from <= at == ReachedAfter(from, streams, k) && at <= |log|
    && LiveFold(v0, cfg, log, from, at) == Some(v)
  }

  /** The next stream is read from where the last one broke off. */
  lemma NextStreamRead(v0: View, cfg: Config, log: Log, from: nat, streams: seq<seq<Message>>, k: nat,
                       mid: nat, v: View, at: nat, v': View)
    requires StreamsRead(v0, cfg, log, from, streams, k, mid, v) && k < |streams|
    requires at == Reached(mid, streams[k], |streams[k]|) <= |log| && LiveFold(v, cfg, log, mid, at) == Some(v')
    ensures StreamsRead(v0, cfg, log, from, streams, k + 1, at, v')
  {
    LiveFoldJoins(v0, cfg, log, from, mid, at);
  }

  lemma StreamFailed(v0: View, cfg: Config, log: Log, from: nat, streams: seq<seq<Message>>, k: nat, mid: nat, v: View)
    requires StreamsRead(v0, cfg, log, from, streams, k, mid, v) && LiveFold(v, cfg, log, mid, |log|).None?
    ensures LiveFold(v0, cfg, log, from, |log|).None?
  {
    LiveFoldJoins(v0, cfg, log, from, mid, |log|);
  }
}
