/** The Android updater plugin: downloading the release APK into the cache
    directory while reporting progress, and handing it to the package
    installer. The connection, the stream's successive reads and where the
    download fails are parameters; the download's thread is modelled as running
    to its end within the call. */
module AppUpdater {
  import opened JsValues

  const INT_MIN: int := -0x8000_0000
  const INT_MAX: int := 0x7FFF_FFFF

  /** Java's `(int)` cast of a `long`: the low 32 bits, read as a signed value. */
  function Int32(x: int): (r: int)
    ensures INT_MIN <= r <= INT_MAX
    ensures INT_MIN <= x <= INT_MAX ==> r == x
  {
    (x - INT_MIN) % 0x1_0000_0000 + INT_MIN
  }

  /** Java's `/` on non-negative `long` operands, as repeated subtraction. For such operands
      Java's and Dafny's `/` agree, and `QuotientBounds` states that this is that division.
      The recursive form is kept because the monotonicity and percentage facts below then go
      by induction on the dividend; the same facts about the built-in `/` need non-linear
      arithmetic, which the solver does not finish within its limits. */
  function Quotient(a: nat, n: nat): nat
    requires n > 0
    decreases a
  {
    if a < n then 0 else 1 + Quotient(a - n, n)
  }

  /** The quotient is the largest multiple of `n` not above `a`, as truncating division's. */
  lemma {:induction false} QuotientBounds(a: nat, n: nat)
    requires n > 0
    ensures Quotient(a, n) * n <= a < Quotient(a, n) * n + n
    decreases a
  {
    if a >= n {
      QuotientBounds(a - n, n);
      assert Quotient(a, n) * n == Quotient(a - n, n) * n + n;
    }
  }

  /** Dividing by a positive number keeps the order. */
  lemma {:induction false} QuotientMonotone(a: nat, b: nat, n: nat)
    requires a <= b && n > 0
    ensures Quotient(a, n) <= Quotient(b, n)
    decreases a
  {
    if a >= n {
      QuotientMonotone(a - n, b - n, n);
    }
  }

  /** `k * n / n == k`. */
  lemma {:induction false} QuotientOfMultiple(k: nat, n: nat)
    requires n > 0
    ensures Quotient(k * n, n) == k
    decreases k
  {
    if k > 0 {
      assert k * n - n == (k - 1) * n;
      QuotientOfMultiple(k - 1, n);
    }
  }

  /** `(int) (downloaded * 100 / totalSize)`, both operands non-negative so the division
      truncates as Dafny's does. */
  function Percent(downloaded: nat, totalSize: int): int
    requires totalSize > 0
  {
    Int32(Quotient(downloaded * 100, totalSize))
  }

  /** The loop's variables after some reads: bytes so far, the last percent reported, and the
      percents reported, in order. */
  datatype Loop = Loop(downloaded: nat, lastPercent: int, percents: seq<int>)

  /** The download loop over the byte counts the stream's reads returned. */
  function Scan(totalSize: int, chunks: seq<nat>): Loop
    decreases |chunks|
  {
    if |chunks| == 0 then Loop(0, -1, [])
    else
      var s := Scan(totalSize, chunks[..|chunks| - 1]);
      var d := s.downloaded + chunks[|chunks| - 1];
      if totalSize > 0 && Percent(d, totalSize) != s.lastPercent then Loop(d, Percent(d, totalSize), s.percents + [Percent(d, totalSize)])
      else Loop(d, s.lastPercent, s.percents)
  }

  /** The sum of the byte counts. */
  function Sum(chunks: seq<nat>): nat
    decreases |chunks|
  {
    if |chunks| == 0 then 0 else Sum(chunks[..|chunks| - 1]) + chunks[|chunks| - 1]
  }

  predicate StrictlyIncreasing(ps: seq<int>) {
    forall i, j :: 0 <= i < j < |ps| ==> ps[i] < ps[j]
  }

  /** The loop counts every byte read. */
  lemma {:induction false} ScanCountsEveryByte(totalSize: int, chunks: seq<nat>)
    ensures Scan(totalSize, chunks).downloaded == Sum(chunks)
    decreases |chunks|
  {
    if |chunks| > 0 {
      ScanCountsEveryByte(totalSize, chunks[..|chunks| - 1]);
    }
  }

  /** Without a known content length no progress is reported. */
  lemma {:induction false} NoProgressWithoutLength(totalSize: int, chunks: seq<nat>)
    requires totalSize <= 0
    ensures Scan(totalSize, chunks).percents == [] && Scan(totalSize, chunks).lastPercent == -1
    decreases |chunks|
  {
    if |chunks| > 0 {
      NoProgressWithoutLength(totalSize, chunks[..|chunks| - 1]);
    }
  }

  /** More bytes never give a smaller percentage, while it fits an `int`. */
  lemma PercentMonotone(d1: nat, d2: nat, totalSize: int)
    requires d1 <= d2 && totalSize > 0 && Quotient(d2 * 100, totalSize) <= INT_MAX
    ensures 0 <= Percent(d1, totalSize) <= Percent(d2, totalSize) == Quotient(d2 * 100, totalSize)
  {
    QuotientMonotone(d1 * 100, d2 * 100, totalSize);
  }

  /** While the percentage fits an `int`, the reported percents start at 0 or more and strictly
      increase, the last reported one is the current percentage, and none exceeds it. */
  lemma {:induction false} PercentsIncrease(totalSize: int, chunks: seq<nat>)
    requires totalSize > 0 && Quotient(Sum(chunks) * 100, totalSize) <= INT_MAX
    ensures var s := Scan(totalSize, chunks);
      StrictlyIncreasing(s.percents) &&
      (forall i :: 0 <= i < |s.percents| ==> 0 <= s.percents[i] <= Percent(Sum(chunks), totalSize)) &&
      (|chunks| == 0 ==> s.percents == [] && s.lastPercent == -1) &&
      (|chunks| > 0 ==> |s.percents| > 0 && s.lastPercent == s.percents[|s.percents| - 1] == Percent(Sum(chunks), totalSize))
    decreases |chunks|
  {
    if |chunks| > 0 {
      var prefix := chunks[..|chunks| - 1];
      var d := Sum(chunks);
      QuotientMonotone(Sum(prefix) * 100, d * 100, totalSize);
      PercentMonotone(Sum(prefix), d, totalSize);
      PercentsIncrease(totalSize, prefix);
      ScanCountsEveryByte(totalSize, prefix);
    }
  }

  /** A complete download whose length matches the announced one reports 100 last. */
  lemma CompleteDownloadEndsAtHundred(totalSize: int, chunks: seq<nat>)
    requires totalSize > 0 && Sum(chunks) == totalSize && |chunks| > 0
    ensures var ps := Scan(totalSize, chunks).percents; |ps| > 0 && ps[|ps| - 1] == 100
  {
    QuotientOfMultiple(100, totalSize);
    assert Sum(chunks) * 100 == 100 * totalSize;
    PercentsIncrease(totalSize, chunks);
    assert Percent(Sum(chunks), totalSize) == 100;
  }

  /** How the download ends: at the end of the stream, or with an exception thrown while
      connecting (before the file is created) or while reading. */
  datatype Ending = Eof | ConnectFailed(message: Option<string>) | StreamFailed(message: Option<string>)

  /** The events the plugin sends to the web layer. */
  datatype Event = DownloadProgress(percent: int) | DownloadComplete | DownloadError(message: Option<string>)

  /** How a plugin call was answered. */
  datatype Answer = Unanswered | Resolved | Rejected(reason: string)

  function ProgressEvents(ps: seq<int>): (es: seq<Event>)
    ensures |es| == |ps| && forall i :: 0 <= i < |ps| ==> es[i] == DownloadProgress(ps[i])
  {
    seq(|ps|, i requires 0 <= i < |ps| => DownloadProgress(ps[i]))
  }

  class Updater {
    var events: seq<Event>
    var answer: Answer
    var apkExists: bool
    var apkSize: nat
    var installs: nat      // installer intents started

    /** The plugin starts with no events and no answer; an APK left in the cache directory by an
        earlier run (`apkCached`, of `cachedSize` bytes) is still there. */
    constructor (apkCached: bool, cachedSize: nat)
      ensures events == [] && answer == Unanswered && installs == 0
      ensures apkExists == apkCached && apkSize == (if apkCached then cachedSize else 0)
    {
      events := [];
      answer := Unanswered;
      apkExists := apkCached;
      apkSize := if apkCached then cachedSize else 0;
      installs := 0;
    }

    /** `downloadApk`: a missing or empty url is rejected before anything starts. Otherwise
        the file receives every byte read, a progress event is sent whenever the percentage
        changes, and the call ends resolved after `downloadComplete` or rejected after
        `downloadError`. */
    method DownloadApk(url: Option<string>, totalSize: int, chunks: seq<nat>, ending: Ending)
      modifies this`events, this`answer, this`apkExists, this`apkSize
      ensures !Truthy(url) ==>
        answer == Rejected("Missing url parameter") && events == old(events) &&
        apkExists == old(apkExists) && apkSize == old(apkSize)
      ensures Truthy(url) && ending.ConnectFailed? ==>
        answer == Rejected("Download failed") && events == old(events) + [DownloadError(ending.message)] &&
        apkExists == old(apkExists) && apkSize == old(apkSize)
      ensures Truthy(url) && !ending.ConnectFailed? ==>
        apkExists && apkSize == Sum(chunks) &&
        events == old(events) + ProgressEvents(Scan(totalSize, chunks).percents) +
          (if ending.Eof? then [DownloadComplete] else [DownloadError(ending.message)]) &&
        answer == (if ending.Eof? then Resolved else Rejected("Download failed"))
    {
      if !Truthy(url) {
        answer := Rejected("Missing url parameter");
        return;
      }
      if ending.ConnectFailed? {
        events := events + [DownloadError(ending.message)];
        answer := Rejected("Download failed");
        return;
      }
      apkExists := true;
      apkSize := 0;
      var downloaded: nat := 0;
      var lastPercent := -1;
      var emitted: seq<int> := [];
      var i := 0;
      while i < |chunks|
        invariant 0 <= i <= |chunks|
        invariant Scan(totalSize, chunks[..i]) == Loop(downloaded, lastPercent, emitted)
        invariant apkExists && apkSize == downloaded
        invariant events == old(events) + ProgressEvents(emitted)
      {
        assert chunks[..i + 1][..i] == chunks[..i];
        apkSize := apkSize + chunks[i];
        downloaded := downloaded + chunks[i];
        if totalSize > 0 {
          var percent := Percent(downloaded, totalSize);
          if percent != lastPercent {
            lastPercent := percent;
            emitted := emitted + [percent];
            events := events + [DownloadProgress(percent)];
          }
        }
        i := i + 1;
      }
      assert chunks[..|chunks|] == chunks;
      ScanCountsEveryByte(totalSize, chunks);
      if ending.Eof? {
        events := events + [DownloadComplete];
        answer := Resolved;
      } else {
        events := events + [DownloadError(ending.message)];
        answer := Rejected("Download failed");
      }
    }

    /** `installApk`: without a downloaded file the call is rejected; otherwise the installer is
        started, and a failure to start it rejects the call. */
    method InstallApk(launchOk: bool)
      modifies this`answer, this`installs
      ensures !apkExists ==> answer == Rejected("APK file not found") && installs == old(installs)
      ensures apkExists && launchOk ==> answer == Resolved && installs == old(installs) + 1
      ensures apkExists && !launchOk ==> answer == Rejected("Install failed") && installs == old(installs)
    {
      if !apkExists {
        answer := Rejected("APK file not found");
        return;
      }
      if !launchOk {
        answer := Rejected("Install failed");
        return;
      }
      installs := installs + 1;
      answer := Resolved;
    }
  }

  /** Reads of 50, 50 and 100 bytes of an announced 200 report 25, 50 and 100. */
  lemma QuarterDownload()
    ensures Scan(200, [50, 50, 100]).percents == [25, 50, 100]
  {
    QuotientOfMultiple(25, 200);
    QuotientOfMultiple(50, 200);
    QuotientOfMultiple(100, 200);
    assert Percent(50, 200) == 25;
    assert Percent(100, 200) == 50;
    assert Percent(200, 200) == 100;
    assert [50][..0] == [];
    assert Scan(200, [50]) == Loop(50, 25, [25]);
    assert [50, 50][..1] == [50];
    assert Scan(200, [50, 50]) == Loop(100, 50, [25, 50]);
    assert [50, 50, 100][..2] == [50, 50];
  }

  /** An APK cached by an earlier run installs at once; with none cached, installing before
      downloading is rejected; a 3-chunk download of an announced 200 bytes
      reports 25, 50 and 100 and then completes. */
  method UpdateScenario()
  {
    var stale := new Updater(true, 10);
    stale.InstallApk(true);
    assert stale.answer == Resolved && stale.installs == 1;
    var u := new Updater(false, 0);
    u.InstallApk(true);
    assert u.answer == Rejected("APK file not found");
    u.DownloadApk(Some("https://example.org/app.apk"), 200, [50, 50, 100], Eof);
    QuarterDownload();
    assert u.events == [DownloadProgress(25), DownloadProgress(50), DownloadProgress(100), DownloadComplete];
    u.InstallApk(true);
    assert u.answer == Resolved && u.installs == 1;
  }
}
