/**
 * `getFile`: picks the output for an item.  Without `--split` it is
 * standard output; with it, one mbox per calendar month, opened in append
 * mode on first use and cached in `outputFiles` under a key made of the
 * `struct tm` year and month.
 */
module Router {
  import opened Wrappers

  /** An output stream: standard output or a file `fopen` returned. */
  datatype Handle = Stdout | File(id: nat)

  /** Why no output could be chosen: `fopen` failed (the program then exits with status 1). */
  datatype RouteError = OpenFailed

  /**
   * `(tm_mon & 0xffff) | ((tm_year & 0xffff) << 16)`.  Euclidean `%` by
   * 0x10000 is `& 0xffff` on two's-complement values, and the two masked
   * parts occupy disjoint bits, so `|` is `+`.
   */
  function MonthKey(tmYear: int, tmMon: int): (key: int)
    ensures 0 <= key < 0x1_0000_0000
  {
    (tmMon % 0x10000) + (tmYear % 0x10000) * 0x10000
  }

  /** Distinct months get distinct keys: split output never mixes two months in one file. */
  lemma MonthKeyInjective(y1: int, m1: int, y2: int, m2: int)
    requires 0 <= y1 < 0x10000 && 0 <= m1 < 0x10000
    requires 0 <= y2 < 0x10000 && 0 <= m2 < 0x10000
    ensures MonthKey(y1, m1) == MonthKey(y2, m2) <==> y1 == y2 && m1 == m2
  {
    if MonthKey(y1, m1) == MonthKey(y2, m2) {
      assert m1 + y1 * 0x10000 == m2 + y2 * 0x10000;
    }
  }

  /** What `getFile` returns, and the cache it leaves. */
  datatype Routed = Routed(result: Result<Handle, RouteError>, files: map<int, Handle>)

  /**
   * One call of `getFile`.  `openResult` is what `fopen` of that month's file
   * would return: a new stream, or `None` for a failure.  It is consulted
   * only on a cache miss.
   */
  function Route(split: bool, files: map<int, Handle>, tmYear: int, tmMon: int, openResult: Option<nat>): (r: Routed)
    ensures files.Keys <= r.files.Keys && forall k :: k in files ==> r.files[k] == files[k]
    ensures !split ==> r.result == Ok(Stdout)
    ensures split && r.result.Ok? ==>
      MonthKey(tmYear, tmMon) in r.files && r.files[MonthKey(tmYear, tmMon)] == r.result.value
  {
    if !split then Routed(Ok(Stdout), files)
    else
      var key := MonthKey(tmYear, tmMon);
      if key in files then Routed(Ok(files[key]), files)
      else if openResult.None? then Routed(Err(OpenFailed), files)
      else Routed(Ok(File(openResult.value)), files[key := File(openResult.value)])
  }

  /** The process-wide cache of open month files, with the `--split` flag. */
  class OutputRouter {
    const split: bool
    var files: map<int, Handle>

    constructor(split: bool)
      ensures this.split == split && files == map[]
    {
      this.split := split;
      files := map[];
    }

    method GetFile(tmYear: int, tmMon: int, openResult: Option<nat>) returns (r: Result<Handle, RouteError>)
      modifies this
      ensures Routed(r, files) == Route(split, old(files), tmYear, tmMon, openResult)
    {
      if !split {
        return Ok(Stdout);
      }
      var key := MonthKey(tmYear, tmMon);
      if key !in files {
        if openResult.None? {
          return Err(OpenFailed);
        }
        files := files[key := File(openResult.value)];
      }
      r := Ok(files[key]);
    }
  }

  /** Without `--split` every item goes to standard output and the cache is untouched. */
  lemma RouteDefault(files: map<int, Handle>, tmYear: int, tmMon: int, openResult: Option<nat>)
    ensures Route(false, files, tmYear, tmMon, openResult) == Routed(Ok(Stdout), files)
  {
  }

  /**
   * With `--split`, a miss whose `fopen` succeeds adds exactly one entry,
   * under the month's key, and leaves every other entry as it was; a miss
   * whose `fopen` fails is an error and adds nothing.
   */
  lemma RouteMiss(files: map<int, Handle>, tmYear: int, tmMon: int, openResult: Option<nat>)
    requires MonthKey(tmYear, tmMon) !in files
    ensures var r := Route(true, files, tmYear, tmMon, openResult);
      (openResult.None? ==> r == Routed(Err(OpenFailed), files)) &&
      (openResult.Some? ==>
        r.result == Ok(File(openResult.value)) &&
        r.files.Keys == files.Keys + {MonthKey(tmYear, tmMon)} &&
        |r.files| == |files| + 1 &&
        r.files[MonthKey(tmYear, tmMon)] == File(openResult.value) &&
        forall k :: k in files ==> r.files[k] == files[k])
  {
  }

  /**
   * A second call for the same month returns the same stream, does not
   * open anything and leaves the cache as the first call left it.
   */
  lemma RouteTwice(split: bool, files: map<int, Handle>, tmYear: int, tmMon: int,
                   first: Option<nat>, second: Option<nat>)
    requires Route(split, files, tmYear, tmMon, first).result.Ok?
    ensures var r1 := Route(split, files, tmYear, tmMon, first);
      Route(split, r1.files, tmYear, tmMon, second) == r1
  {
  }

  /**
   * Two months in range with two successful opens on an empty cache leave
   * two entries, each month under its own key with the stream opened for
   * it; distinct streams stay distinct.
   */
  lemma RouteTwoMonths(y1: int, m1: int, y2: int, m2: int, f1: nat, f2: nat)
    requires 0 <= y1 < 0x10000 && 0 <= m1 < 0x10000
    requires 0 <= y2 < 0x10000 && 0 <= m2 < 0x10000
    requires (y1, m1) != (y2, m2)
    ensures var r1 := Route(true, map[], y1, m1, Some(f1));
      var r2 := Route(true, r1.files, y2, m2, Some(f2));
      r1.result == Ok(File(f1)) && r2.result == Ok(File(f2)) && |r2.files| == 2 &&
      r2.files[MonthKey(y1, m1)] == File(f1) && r2.files[MonthKey(y2, m2)] == File(f2) &&
      (f1 != f2 ==> r2.files[MonthKey(y1, m1)] != r2.files[MonthKey(y2, m2)])
  {
    MonthKeyInjective(y1, m1, y2, m2);
  }
}
