/** The scan-result command (wifi_scan.c, handlers.c): a client reads the ranking page by page,
    through a 16-bit loop counter and a 16-bit index. */
module ScanPages {
  import opened CStrings
  import opened Seqs
  import opened ScanRanking
  import opened WifiScans

  const TWO_16 := 0x1_0000
  const TWO_32 := 0x1_0000_0000

  /** An entry of the response; the SSID is cut at its terminator. */
  datatype Entry = Entry(ssid: string, bssid: string, channel: nat, rssi: int, auth: nat)

  datatype PageStatus = Success | InternalError

  datatype Page = Page(status: PageStatus, entries: seq<Option<Entry>>)

  function EntryOf(ap: Ap): Entry
  {
    Entry(CString(ap.ssid, 32), ap.bssid, ap.channel, ap.rssi, ap.auth)
  }

  /** e is how a client sees ap: the same numbers and BSSID, and of the SSID its first 32 octets
      up to the first NUL among them. */
  predicate Shows(e: Entry, ap: Ap)
  {
    && e.bssid == ap.bssid && e.channel == ap.channel && e.rssi == ap.rssi && e.auth == ap.auth
    && e.ssid <= ap.ssid && |e.ssid| <= 32 && '\0' !in e.ssid
    && (|e.ssid| == 32 || |e.ssid| == |ap.ssid| || ap.ssid[|e.ssid|] == '\0')
  }

  /** That leaves no choice. */
  lemma ShowsOne(e: Entry, ap: Ap)
    ensures Shows(e, ap) <==> e == EntryOf(ap)
  {
    if Shows(e, ap) {
      CStringUnique(ap.ssid, 32, e.ssid);
    }
  }

  function EntryAt(shown: seq<Ap>, index: nat): Option<Entry>
  {
    if index < |shown| then Some(EntryOf(shown[index])) else None
  }

  /** An answer for the record at an index of the ranking, or for none. */
  predicate Answers(entry: Option<Entry>, shown: seq<Ap>, index: nat)
  {
    if index < |shown| then entry.Some? && Shows(entry.value, shown[index]) else entry == None
  }

  lemma PageAnswers(shown: seq<Ap>, first: nat, count: nat, page: Page)
    requires IsPage(shown, first, count, page)
    ensures forall j :: 0 <= j < count ==> Answers(page.entries[j], shown, first + j)
  {
    forall j | 0 <= j < count ensures Answers(page.entries[j], shown, first + j) {
      assert page.entries[j] == EntryAt(shown, first + j);
    }
  }

  /** The page shows the ranking from `first` on, NULL where it has ended, and is a success
      when it lies inside the ranking. */
  ghost predicate IsPage(shown: seq<Ap>, first: nat, count: nat, page: Page)
  {
    && |page.entries| == count
    && (forall j :: 0 <= j < count ==> page.entries[j] == EntryAt(shown, first + j))
    && (page.status == Success <==> count == 0 || first + count <= |shown|)
  }

  /** A sum that stays below 2^16 survives the 32-bit addition and the cut to 16 bits. */
  lemma IndexSurvives(start: nat, i: nat)
    requires start % TWO_16 + i < TWO_16
    ensures (start + i) % TWO_32 % TWO_16 == start % TWO_16 + i
  {
  }

  /** One fetch: the index is a uint16_t. */
  function FetchResult(scanner: Scanner, index: nat): (entry: Option<Entry>)
    requires scanner.Valid() && index < TWO_16
    reads scanner, scanner.apList, scanner.apListLen, scanner.sorted
    ensures entry == EntryAt(scanner.State().shown, index)
    ensures entry.Some? <==> index < |scanner.State().shown|
    ensures entry.Some? ==> Shows(entry.value, scanner.State().shown[index])
  {
    var record := scanner.Result(index);
    if record.Some? then Some(EntryOf(record.value)) else None
  }

  /** calloc: no entry yet. */
  function Zeroed(count: nat): (r: seq<Option<Entry>>)
    ensures |r| == count && forall i :: 0 <= i < count ==> r[i] == None
  {
    if count == 0 then [] else Zeroed(count - 1) + [None]
  }

  lemma NoneCopied(shown: seq<Ap>, first: nat, count: nat)
    ensures Copied(Zeroed(count), shown, first, 0)
  {
  }

  ghost predicate CopiedAt(results: seq<Option<Entry>>, shown: seq<Ap>, first: nat, n: nat, j: int)
  {
    0 <= j < |results| ==> results[j] == if j < n then EntryAt(shown, first + j) else None
  }

  ghost predicate Copied(results: seq<Option<Entry>>, shown: seq<Ap>, first: nat, n: nat)
  {
    forall j {:trigger CopiedAt(results, shown, first, n, j)} :: CopiedAt(results, shown, first, n, j)
  }

  lemma CopyNext(was: seq<Option<Entry>>, results: seq<Option<Entry>>, shown: seq<Ap>, first: nat, n: nat)
    requires 0 < n <= |was| && Copied(was, shown, first, n - 1)
    requires results == was[n - 1 := EntryAt(shown, first + n - 1)]
    ensures Copied(results, shown, first, n)
  {
    forall j ensures CopiedAt(results, shown, first, n, j) {
      assert CopiedAt(was, shown, first, n - 1, j);
    }
  }

  /** The loop has copied n entries, and there was no further one unless it is done. */
  lemma PageDone(results: seq<Option<Entry>>, shown: seq<Ap>, first: nat, n: nat, status: PageStatus)
    requires n <= |results| && Copied(results, shown, first, n) && (n > 0 ==> first + n <= |shown|)
    requires if n < |results| then status == InternalError && EntryAt(shown, first + n) == None else status == Success
    ensures IsPage(shown, first, |results|, Page(status, results))
  {
    forall j | 0 <= j < |results| ensures results[j] == EntryAt(shown, first + j) {
      assert CopiedAt(results, shown, first, n, j);
    }
  }

  /** i++ on a uint16_t. */
  function Increment(i: nat): nat
    requires i < TWO_16
  {
    if i + 1 == TWO_16 then 0 else i + 1
  }

  /** The loop ends for every 32-bit start and count: its 16-bit counter never wraps, because
      at most K <= 255 fetches in a row succeed. */
  method ScanResultHandler(scanner: Scanner, start: nat, count: nat) returns (page: Page)
    requires scanner.Valid() && scanner.sorted.Length <= 255 && start < TWO_32 && count < TWO_32
    ensures IsPage(scanner.State().shown, start % TWO_16, count, page)
    ensures forall j :: 0 <= j < count ==> Answers(page.entries[j], scanner.State().shown, start % TWO_16 + j)
  {
    var fetch := (index: nat) requires scanner.Valid() && index < TWO_16
      reads scanner, scanner.apList, scanner.apListLen, scanner.sorted => FetchResult(scanner, index);
    page := FillPage(fetch, start, count, scanner.State().shown, start % TWO_16);
    PageAnswers(scanner.State().shown, start % TWO_16, count, page);
  }

  /** The loop, which reaches the ranking through h->scan_result. */
  method FillPage(fetch: nat ~> Option<Entry>, start: nat, count: nat, ghost shown: seq<Ap>, ghost first: nat) returns (page: Page)
    requires |shown| <= 255 && first == start % TWO_16
    requires forall index: nat :: index < TWO_16 ==> fetch.requires(index)
    requires forall index: nat :: index < TWO_16 ==> fetch(index) == EntryAt(shown, index)
    ensures IsPage(shown, first, count, page)
  {
    var results := Zeroed(count);
    var status := Success;
    NoneCopied(shown, first, count);
    var i := 0;
    while i < count
      invariant 0 <= i <= count == |results| && (i > 0 ==> first + i <= |shown|)
      invariant Copied(results, shown, first, i) && status == Success
      decreases count - i
    {
      IndexSurvives(start, i);
      var entry := fetch((start + i) % TWO_32 % TWO_16);
      if entry.None? {
        status := InternalError;
        break;
      }
      ghost var was := results;
      results := results[i := entry];
      i := Increment(i);
      CopyNext(was, results, shown, first, i);
    }
    PageDone(results, shown, first, i, status);
    page := Page(status, results);
  }

  /** The answer is the page the client asked for, except that a start index of 65536 or more
      whose low 16 bits lie inside the ranking shows a page that does not exist. */
  lemma RightPage(shown: seq<Ap>, start: nat, count: nat, page: Page)
    requires |shown| <= 255 && IsPage(shown, start % TWO_16, count, page)
    ensures IsPage(shown, start, count, page) <==> count == 0 || start < TWO_16 || start % TWO_16 >= |shown|
  {
    if count > 0 && start >= TWO_16 && start % TWO_16 < |shown| {
      assert page.entries[0] == EntryAt(shown, start % TWO_16) && EntryAt(shown, start) == None;
      assert EntryAt(shown, start + 0) == None;
    }
  }

  /** A request for one entry from 65536 on shows the first record. */
  lemma StartWraps(shown: seq<Ap>, page: Page)
    requires |shown| > 0 && IsPage(shown, 65536 % TWO_16, 1, page)
    ensures page == Page(Success, [Some(EntryOf(shown[0]))])
  {
  }

  // ---- cleaning up after the response

  /** The uint16_t counter of the clean-up loop after n turns. */
  function Counter(n: nat): (i: nat)
    ensures i < TWO_16
  {
    if n == 0 then 0 else Increment(Counter(n - 1))
  }

  lemma {:induction false} CounterCounts(n: nat)
    ensures n < TWO_16 ==> Counter(n) == n
  {
    if n > 0 {
      CounterCounts(n - 1);
    }
  }

  /** The loop over `count` entries stops after n turns. */
  ghost predicate StopsAfter(count: nat, n: nat)
  {
    Counter(n) >= count && forall m: nat :: m < n ==> Counter(m) < count
  }

  /** The clean-up after a response ends exactly when fewer than 65536 entries were asked
      for, which the loop that fills the response does not need. */
  lemma CleanupEndsIff(count: nat)
    ensures (exists n :: StopsAfter(count, n)) <==> count < TWO_16
  {
    if count < TWO_16 {
      forall m: nat | m <= count ensures Counter(m) == m {
        CounterCounts(m);
      }
      assert StopsAfter(count, count);
    }
  }

  /** A request for 65536 entries is answered, and then never cleaned up. */
  lemma CleanupRunsOn(n: nat)
    ensures !StopsAfter(65536, n)
  {
  }

  function Present(entries: seq<Option<Entry>>): seq<Entry>
  {
    if entries == [] then []
    else
      var last := entries[|entries| - 1];
      Present(entries[..|entries| - 1]) + if last.Some? then [last.value] else []
  }

  /** Each entry of a response counts as often among the present ones as it occurs. */
  lemma {:induction false} PresentAll(entries: seq<Option<Entry>>, e: Entry)
    ensures multiset(Present(entries))[e] == multiset(entries)[Some(e)]
  {
    if entries != [] {
      var before, last := entries[..|entries| - 1], entries[|entries| - 1];
      PresentAll(before, e);
      assert entries == before + [last];
      assert multiset(entries) == multiset(before) + multiset{last};
    }
  }

  /** The loop itself, where it ends: every entry of the response is freed, once. */
  method Cleanup(entries: seq<Option<Entry>>) returns (freed: seq<Entry>)
    requires |entries| < TWO_16
    ensures freed == Present(entries)
    ensures forall e: Entry :: multiset(freed)[e] == multiset(entries)[Some(e)]
  {
    freed := [];
    var i := 0;
    while i < |entries|
      invariant 0 <= i <= |entries| && freed == Present(entries[..i])
    {
      assert entries[..i + 1][..i] == entries[..i];
      if entries[i].Some? {
        freed := freed + [entries[i].value];
      }
      i := Increment(i);
    }
    assert entries[..i] == entries;
    forall e: Entry ensures multiset(freed)[e] == multiset(entries)[Some(e)] {
      PresentAll(entries, e);
    }
  }

  // ---- reading the whole ranking

  function Total(counts: seq<nat>): nat
  {
    if counts == [] then 0 else Total(counts[..|counts| - 1]) + counts[|counts| - 1]
  }

  function Joined(pages: seq<Page>): seq<Option<Entry>>
  {
    if pages == [] then [] else Joined(pages[..|pages| - 1]) + pages[|pages| - 1].entries
  }

  /** Page i was asked for where the pages before it end. */
  ghost predicate PageAt(shown: seq<Ap>, counts: seq<nat>, pages: seq<Page>, i: int)
  {
    0 <= i < |pages| == |counts| ==> IsPage(shown, Total(counts[..i]) % TWO_16, counts[i], pages[i])
  }

  /** Consecutive pages of one ranking. */
  ghost predicate PagedBy(shown: seq<Ap>, counts: seq<nat>, pages: seq<Page>)
  {
    |counts| == |pages| && forall i {:trigger PageAt(shown, counts, pages, i)} :: PageAt(shown, counts, pages, i)
  }

  lemma PagedByPrefix(shown: seq<Ap>, counts: seq<nat>, pages: seq<Page>, n: nat)
    requires PagedBy(shown, counts, pages) && n <= |pages|
    ensures PagedBy(shown, counts[..n], pages[..n])
  {
    forall i ensures PageAt(shown, counts[..n], pages[..n], i) {
      assert PageAt(shown, counts, pages, i);
      assert 0 <= i < n ==> counts[..n][..i] == counts[..i];
    }
  }

  /** The whole ranking as a client wants to read it. */
  function Wanted(shown: seq<Ap>): (r: seq<Option<Entry>>)
    ensures |r| == |shown| && forall i :: 0 <= i < |shown| ==> r[i] == Some(EntryOf(shown[i]))
  {
    seq(|shown|, i requires 0 <= i < |shown| => Some(EntryOf(shown[i])))
  }

  lemma PageIsSlice(shown: seq<Ap>, first: nat, count: nat, page: Page)
    requires IsPage(shown, first, count, page) && first + count <= |shown|
    ensures page == Page(Success, Wanted(shown)[first..first + count])
  {
    forall j | 0 <= j < count ensures page.entries[j] == Wanted(shown)[first..first + count][j] {
      assert page.entries[j] == EntryAt(shown, first + j);
    }
  }

  lemma LastPage(shown: seq<Ap>, counts: seq<nat>, pages: seq<Page>, n: nat)
    requires PagedBy(shown, counts, pages) && |pages| == n + 1 && Total(counts) <= |shown| <= 255
    ensures pages[n].entries == Wanted(shown)[Total(counts[..n])..Total(counts)]
  {
    assert PageAt(shown, counts, pages, n);
    PageIsSlice(shown, Total(counts[..n]), counts[n], pages[n]);
  }

  /** Consecutive pages inside the ranking, put together, are the ranking up to where they
      end. */
  lemma {:induction false} PagesMakeRanking(shown: seq<Ap>, counts: seq<nat>, pages: seq<Page>)
    requires PagedBy(shown, counts, pages) && Total(counts) <= |shown| <= 255
    ensures Joined(pages) == Wanted(shown)[..Total(counts)]
  {
    if pages != [] {
      var n := |pages| - 1;
      PagedByPrefix(shown, counts, pages, n);
      PagesMakeRanking(shown, counts[..n], pages[..n]);
      LastPage(shown, counts, pages, n);
      Joins(Wanted(shown), Total(counts[..n]), Total(counts));
    }
  }

  lemma Joins<T>(s: seq<T>, i: nat, j: nat)
    requires i <= j <= |s|
    ensures s[..i] + s[i..j] == s[..j]
  {
  }

  lemma {:induction false} TotalGrows(counts: seq<nat>, n: nat)
    requires n <= |counts|
    ensures Total(counts[..n]) <= Total(counts)
    decreases |counts|
  {
    if n == |counts| {
      assert counts[..n] == counts;
    } else {
      TotalGrows(counts[..|counts| - 1], n);
      assert counts[..|counts| - 1][..n] == counts[..n];
    }
  }

  /** And every one of them is answered with success. */
  lemma PagesSucceed(shown: seq<Ap>, counts: seq<nat>, pages: seq<Page>, i: nat)
    requires PagedBy(shown, counts, pages) && Total(counts) <= |shown| <= 255 && i < |pages|
    ensures pages[i].status == Success
  {
    assert PageAt(shown, counts, pages, i);
    TotalGrows(counts, i + 1);
    assert counts[..i + 1][..i] == counts[..i];
  }
}
