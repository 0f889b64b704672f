/**
 * The list logic of the driver installation utility
 * (userspace/devnode/main.cpp): REG_MULTI_SZ parsing, the class filter list
 * update and its write decision, the device enumeration loop and the
 * matching, dry-run and reboot rules of device removal. The SetupDi and
 * registry calls around them are inputs: what they return is passed in, and
 * what would be written or uninstalled is returned.
 */
module Devnode {
  import opened Wrappers

  const NUL: char := '\0'

  predicate NulFree(s: string)
  {
    forall k :: 0 <= k < |s| ==> s[k] != NUL
  }

  /** A string that can stand in a REG_MULTI_SZ list: not empty, no NUL inside. */
  predicate Entry(s: string)
  {
    |s| > 0 && NulFree(s)
  }

  predicate Entries(ss: seq<string>)
  {
    forall s :: s in ss ==> Entry(s)
  }

  // ---------------------------------------------------------------------
  // REG_MULTI_SZ values
  // ---------------------------------------------------------------------

  /** The length of the string at the start of s: the index of its first
      NUL, or |s| when there is none. */
  function NulIndex(s: string): (n: nat)
    ensures n <= |s|
    ensures n < |s| ==> s[n] == NUL
    ensures forall k :: 0 <= k < n ==> s[k] != NUL
    decreases |s|
  {
    if |s| == 0 || s[0] == NUL then 0 else 1 + NulIndex(s[1..])
  }

  /** The strings of a REG_MULTI_SZ buffer, in order, up to the first empty
      string (or the end of the buffer). */
  function Strings(buf: string): seq<string>
    decreases |buf|
  {
    if |buf| == 0 || buf[0] == NUL then []
    else
      var n := NulIndex(buf);
      [buf[..n]] + (if n < |buf| then Strings(buf[n + 1..]) else [])
  }

  /** From index i on, the buffer reaches an empty string (a NUL where a
      string starts) before it ends: a walk from i never runs off the end. */
  ghost predicate TerminatedFrom(buf: string, i: nat)
  {
    exists k :: EmptyStringAt(buf, i, k)
  }

  /** Walking from i, index k holds an empty string: a NUL at i itself or
      right after another NUL. */
  predicate EmptyStringAt(buf: string, i: nat, k: nat)
  {
    i <= k < |buf| && buf[k] == NUL && (k == i || buf[k - 1] == NUL)
  }

  /** The list with every copy of x left out, the others kept in order. */
  function Without(ss: seq<string>, x: string): (r: seq<string>)
    decreases |ss|
  {
    if |ss| == 0 then []
    else
      var last := ss[|ss| - 1];
      Without(ss[..|ss| - 1], x) + (if last == x then [] else [last])
  }

  /** Without leaves out every copy of x, and changes nothing when there
      is none. */
  lemma {:induction false} WithoutOmits(ss: seq<string>, x: string)
    ensures x !in Without(ss, x)
    ensures x !in ss ==> Without(ss, x) == ss
    decreases |ss|
  {
    if |ss| > 0 {
      var init := ss[..|ss| - 1];
      assert ss == init + [ss[|ss| - 1]];
      WithoutOmits(init, x);
    }
  }

  /** Without drops exactly the copies of x: every other string keeps its
      number of occurrences. */
  lemma {:induction false} WithoutCounts(ss: seq<string>, x: string)
    ensures multiset(Without(ss, x)) == multiset(ss)[x := 0]
    decreases |ss|
  {
    if |ss| > 0 {
      var init, last := ss[..|ss| - 1], ss[|ss| - 1];
      assert ss == init + [last];
      WithoutCounts(init, x);
    }
  }

  /** Every string a buffer lists is a proper entry. */
  lemma {:induction false} StringsAreEntries(buf: string)
    ensures Entries(Strings(buf))
    decreases |buf|
  {
    if |buf| > 0 && buf[0] != NUL {
      var n := NulIndex(buf);
      assert Entry(buf[..n]);
      if n < |buf| {
        StringsAreEntries(buf[n + 1..]);
      }
    }
  }

  /** Leaving a string out keeps a list of proper entries proper. */
  lemma {:induction false} WithoutKeepsEntries(ss: seq<string>, x: string)
    requires Entries(ss)
    ensures Entries(Without(ss, x))
    decreases |ss|
  {
    if |ss| > 0 {
      assert forall s :: s in ss[..|ss| - 1] ==> s in ss;
      WithoutKeepsEntries(ss[..|ss| - 1], x);
    }
  }

  lemma WithoutSnoc(ss: seq<string>, s: string, x: string)
    ensures Without(ss + [s], x) == Without(ss, x) + (if s == x then [] else [s])
  {
    assert (ss + [s])[..|ss|] == ss;
  }

  /** make_multi_sz: each string followed by a NUL, then the closing NUL. */
  function MakeMultiSz(ss: seq<string>): string
  {
    Joined(ss) + [NUL]
  }

  function Joined(ss: seq<string>): string
    decreases |ss|
  {
    if |ss| == 0 then [] else ss[0] + [NUL] + Joined(ss[1..])
  }

  /** make_hwid: a hardware id as a one-entry REG_MULTI_SZ. */
  function MakeHwid(hwid: string): string
  {
    hwid + [NUL] + [NUL]
  }

  /** In the buffer of s followed by more, the first string is s. */
  lemma {:induction false} NulIndexOfTerminated(s: string, t: string)
    requires NulFree(s)
    ensures NulIndex(s + [NUL] + t) == |s|
    decreases |s|
  {
    if |s| > 0 {
      assert (s + [NUL] + t)[1..] == s[1..] + [NUL] + t;
      NulIndexOfTerminated(s[1..], t);
    }
  }

  /** Splitting what make_multi_sz builds gives the list back, and the walk
      over it stays inside the buffer. */
  lemma {:induction false} SplitAfterJoin(ss: seq<string>)
    requires Entries(ss)
    ensures Strings(MakeMultiSz(ss)) == ss
    ensures TerminatedFrom(MakeMultiSz(ss), 0)
    decreases |ss|
  {
    var buf := MakeMultiSz(ss);
    if |ss| == 0 {
      assert EmptyStringAt(buf, 0, 0);
    } else {
      var s, tail := ss[0], ss[1..];
      assert s in ss;
      assert forall t :: t in tail ==> t in ss;
      SplitAfterJoin(tail);
      var rest := MakeMultiSz(tail);
      assert buf == s + [NUL] + rest;
      assert buf[..|s|] == s;
      assert buf[|s| + 1..] == rest;
      StringsCons(buf, s);
      StringsOfSame(buf[|s| + 1..], rest);
      ConsTail(ss);
      Chain(Strings(buf), s, Strings(buf[|s| + 1..]), tail, ss);
      TerminatedAfter(s, rest);
    }
  }

  /** Putting a string and its NUL in front keeps a buffer terminated. */
  lemma TerminatedAfter(s: string, rest: string)
    requires TerminatedFrom(rest, 0)
    ensures TerminatedFrom(s + [NUL] + rest, 0)
  {
    var buf := s + [NUL] + rest;
    var k: nat :| EmptyStringAt(rest, 0, k);
    assert buf[|s| + 1 + k] == rest[k];
    assert k > 0 ==> buf[|s| + k] == rest[k - 1];
    assert EmptyStringAt(buf, 0, |s| + 1 + k);
  }

  /** make_hwid(h) is the one-entry list [h]: it is what make_multi_sz makes
      of [h], and splitting it gives [h] back. */
  lemma MakeHwidIsSingleton(h: string)
    requires Entry(h)
    ensures MakeHwid(h) == MakeMultiSz([h])
    ensures Strings(MakeHwid(h)) == [h]
    ensures TerminatedFrom(MakeHwid(h), 0)
  {
    assert Joined([h]) == h + [NUL] + Joined([]);
    SplitAfterJoin([h]);
  }

  // ---------------------------------------------------------------------
  // split_multi_sz
  // ---------------------------------------------------------------------

  /** The length of the NUL-terminated string at buf[i..], as
      std::wstring_view computes it. */
  method StringLength(buf: string, i: nat) returns (n: nat)
    requires i <= |buf| && exists k :: i <= k < |buf| && buf[k] == NUL
    ensures i + n < |buf| && buf[i + n] == NUL
    ensures forall k :: i <= k < i + n ==> buf[k] != NUL
    ensures n == NulIndex(buf[i..])
  {
    ghost var end :| i <= end < |buf| && buf[end] == NUL;
    n := 0;
    while buf[i + n] != NUL
      invariant i + n <= end
      invariant forall k :: i <= k < i + n ==> buf[k] != NUL
      decreases end - i - n
    {
      n := n + 1;
    }
    assert buf[i..][n] == NUL;
  }

  // ConsTail, Chain, StringsOfSame and ReplaceHead only restate an
  // equality step. Calling them with the exact terms of a goal keeps the
  // solver from searching the sequence axioms, which keeps the string proofs
  // below cheap.

  lemma ConsTail<T>(ss: seq<T>)
    requires |ss| > 0
    ensures ss == [ss[0]] + ss[1..]
  {
  }

  lemma Chain(a: seq<string>, x: string, t: seq<string>, u: seq<string>, c: seq<string>)
    requires a == [x] + t && t == u && c == [x] + u
    ensures a == c
  {
  }

  lemma StringsOfSame(a: string, b: string)
    requires a == b
    ensures Strings(a) == Strings(b)
  {
  }

  /** A buffer that starts with the string s and its NUL lists s first. */
  lemma StringsCons(buf: string, s: string)
    requires |s| < |buf| && buf[|s|] == NUL
    requires s == buf[..|s|] && Entry(s)
    ensures Strings(buf) == [s] + Strings(buf[|s| + 1..])
  {
    var n := |s|;
    assert forall k :: 0 <= k < n ==> buf[k] == s[k];
    FirstNulAt(buf, n);
    StringsUnfold(buf, n);
    ReplaceHead(Strings(buf), buf[..n], s, Strings(buf[n + 1..]), Strings(buf[n + 1..]));
  }

  /** The first NUL of s is at n. */
  lemma FirstNulAt(s: string, n: nat)
    requires n < |s| && s[n] == NUL
    requires forall k :: 0 <= k < n ==> s[k] != NUL
    ensures NulIndex(s) == n
  {
  }

  /** A buffer whose first string is not empty lists it first. */
  lemma StringsUnfold(b: string, n: nat)
    requires 0 < n < |b| && NulIndex(b) == n
    ensures Strings(b) == [b[..n]] + Strings(b[n + 1..])
  {
  }

  lemma ReplaceHead(a: seq<string>, x: string, y: string, t: seq<string>, u: seq<string>)
    requires a == [x] + t && x == y && t == u
    ensures a == [y] + u
  {
  }

  /** One step of the walk: a string s that is not empty, found at i and
      ended by a NUL, is followed by the rest of the list from next. */
  lemma StringsStep(buf: string, i: nat, s: string, next: nat)
    requires i < next <= |buf| && buf[next - 1] == NUL
    requires s == buf[i..next - 1] && Entry(s)
    ensures Strings(buf[i..]) == [s] + Strings(buf[next..])
  {
    var rest := buf[i..];
    assert rest[|s|] == NUL;
    assert rest[..|s|] == s;
    StringsCons(rest, s);
    assert rest[|s| + 1..] == buf[next..];
    StringsOfSame(rest[|s| + 1..], buf[next..]);
  }

  /** One step of split_multi_sz's walk: the string starting at i, and the
      index just past its NUL, where the rest of the list starts. */
  method NextString(buf: string, i: nat, ghost end: nat) returns (s: string, next: nat)
    requires EmptyStringAt(buf, i, end) && buf[i] != NUL
    ensures Entry(s) && next == i + |s| + 1
    ensures EmptyStringAt(buf, next, end)
    ensures Strings(buf[i..]) == [s] + Strings(buf[next..])
  {
    var n := StringLength(buf, i);
    s := buf[i..i + n];
    next := i + n + 1;
    assert end != i && buf[end - 1] == NUL;
    StringsStep(buf, i, s, next);
  }

  /** The strings a REG_MULTI_SZ buffer lists, when there is one. */
  function Listed(str: Option<string>): seq<string>
  {
    if str.Some? then Strings(str.value) else []
  }

  /** split_multi_sz: the strings of a REG_MULTI_SZ, in order, up to the first
      empty one, leaving out every copy of exclude; excluded is raised when a
      copy was left out and is never lowered. A null buffer is an empty list. */
  method SplitMultiSz(str: Option<string>, exclude: string, excluded: bool)
    returns (v: seq<string>, excludedOut: bool)
    requires str.Some? ==> TerminatedFrom(str.value, 0)
    ensures v == Without(Listed(str), exclude)
    ensures excludedOut == (excluded || exclude in Listed(str))
  {
    if str.None? {
      return [], excluded;
    }
    v, excludedOut := SplitBuffer(str.value, exclude, excluded);
  }

  /** What one string of the walk does to the strings seen so far, to the
      kept list and to the excluded flag. */
  lemma SplitStep(all: seq<string>, seen: seq<string>, s: string, rest: seq<string>,
                  v: seq<string>, exclude: string, excluded: bool, excludedOut: bool)
    requires all == seen + ([s] + rest)
    requires v == Without(seen, exclude)
    requires excludedOut == (excluded || exclude in seen)
    ensures all == (seen + [s]) + rest
    ensures (if s == exclude then v else v + [s]) == Without(seen + [s], exclude)
    ensures (excludedOut || s == exclude) == (excluded || exclude in seen + [s])
  {
    WithoutSnoc(seen, s, exclude);
  }

  /** The walk of split_multi_sz over a buffer that is not null. */
  method SplitBuffer(buf: string, exclude: string, excluded: bool)
    returns (v: seq<string>, excludedOut: bool)
    requires TerminatedFrom(buf, 0)
    ensures v == Without(Strings(buf), exclude)
    ensures excludedOut == (excluded || exclude in Strings(buf))
  {
    v, excludedOut := [], excluded;
    var i := 0;
    ghost var seen: seq<string> := [];
    ghost var end: nat :| EmptyStringAt(buf, 0, end);
    assert buf[i..] == buf;
    while buf[i] != NUL
      invariant EmptyStringAt(buf, i, end)
      invariant Strings(buf) == seen + Strings(buf[i..])
      invariant v == Without(seen, exclude)
      invariant excludedOut == (excluded || exclude in seen)
      decreases |buf| - i
    {
      var s, next := NextString(buf, i, end);
      SplitStep(Strings(buf), seen, s, Strings(buf[next..]), v, exclude, excluded, excludedOut);
      if s == exclude {
        excludedOut := true;
      } else {
        v := v + [s];
      }
      seen := seen + [s];
      i := next;
    }
    assert buf[i..][0] == NUL;
    assert Strings(buf) == seen;
  }

  // ---------------------------------------------------------------------
  // classfilter
  // ---------------------------------------------------------------------

  const REGSTR_VAL_UPPERFILTERS: string := "UpperFilters"
  const REGSTR_VAL_LOWERFILTERS: string := "LowerFilters"

  /** The registry value a level selects: "upper" picks the upper filters,
      anything else the lower ones. */
  function FilterValueName(level: string): (name: string)
    ensures name == REGSTR_VAL_UPPERFILTERS <==> level == "upper"
    ensures name in {REGSTR_VAL_UPPERFILTERS, REGSTR_VAL_LOWERFILTERS}
  {
    if level == "upper" then REGSTR_VAL_UPPERFILTERS else REGSTR_VAL_LOWERFILTERS
  }

  /** What read_multi_z found: the stored buffer, no such value, or an error. */
  datatype RegRead = Found(data: string) | NotFound | ReadFailed

  /** The REG_MULTI_SZ write RegSetValueEx is asked to do. */
  datatype RegWrite = RegWrite(name: string, data: string)

  /** The filter list the class has: a missing value is an empty list. */
  function StoredFilters(read: RegRead): seq<string>
  {
    if read.Found? then Strings(read.data) else []
  }

  /** The list after adding or removing a filter driver. */
  function UpdatedFilters(filters: seq<string>, driver: string, add: bool): seq<string>
  {
    Without(filters, driver) + (if add then [driver] else [])
  }

  /** Whether classfilter writes the value back: always on add, on remove
      only when the driver was listed. */
  function WritesBack(filters: seq<string>, driver: string, add: bool): bool
  {
    add || driver in filters
  }

  /** classfilter: classKeyOk stands for get_class_guid and
      SetupDiOpenClassRegKeyEx, read for read_multi_z, writeOk for
      RegSetValueEx. */
  method ClassFilter(level: string, driver: string, add: bool,
                     classKeyOk: bool, read: RegRead, writeOk: bool)
    returns (ok: bool, write: Option<RegWrite>)
    requires read.Found? ==> |read.data| == 0 || TerminatedFrom(read.data, 0)
    ensures !classKeyOk || read.ReadFailed? ==> !ok && write == None
    ensures classKeyOk && !read.ReadFailed? ==>
      var filters := StoredFilters(read);
      && write == (if WritesBack(filters, driver, add)
                   then Some(RegWrite(FilterValueName(level), MakeMultiSz(UpdatedFilters(filters, driver, add))))
                   else None)
      && ok == (write.None? || writeOk)
  {
    write := None;
    if !classKeyOk {
      return false, None;
    }
    var name := FilterValueName(level);
    if read.ReadFailed? {
      return false, None;
    }
    var val := if read.Found? then read.data else [];
    var modified := add;
    var filters;
    var str := if |val| == 0 then None else Some(val);
    ghost var stored := StoredFilters(read);
    assert Listed(str) == stored;
    filters, modified := SplitMultiSz(str, driver, modified);
    if add {
      filters := filters + [driver];
    } else {
      assert filters + [] == filters;
    }
    assert modified == WritesBack(stored, driver, add);
    assert filters == UpdatedFilters(stored, driver, add);
    if !modified {
      return true, None;
    }
    write := Some(RegWrite(name, MakeMultiSz(filters)));
    ok := writeOk;
  }

  /** Adding puts the driver last, exactly once, after every other entry in
      its original order; removing leaves no copy and the others in order. */
  lemma UpdatedFiltersShape(filters: seq<string>, driver: string, add: bool)
    ensures var r := UpdatedFilters(filters, driver, add);
      && Without(r, driver) == Without(filters, driver)
      && (add ==> |r| > 0 && r[|r| - 1] == driver && multiset(r)[driver] == 1)
      && (!add ==> driver !in r)
      && (!add && driver !in filters ==> r == filters)
  {
    var kept := Without(filters, driver);
    WithoutOmits(filters, driver);
    WithoutOmits(kept, driver);
    if add {
      var r := kept + [driver];
      WithoutSnoc(kept, driver, driver);
      assert multiset(kept)[driver] == 0;
      assert multiset(r) == multiset(kept) + multiset{driver};
    } else {
      assert kept + [] == kept;
    }
  }

  /** Running classfilter add twice: the second run reads back the list the
      first one wrote and writes the very same value again. */
  lemma AddTwiceWritesSameList(filters: seq<string>, driver: string)
    requires Entry(driver)
    requires Entries(filters)
    ensures var first := UpdatedFilters(filters, driver, true);
      && Strings(MakeMultiSz(first)) == first
      && UpdatedFilters(Strings(MakeMultiSz(first)), driver, true) == first
      && multiset(first)[driver] == 1
  {
    var kept := Without(filters, driver);
    var first := kept + [driver];
    WithoutKeepsEntries(filters, driver);
    assert Entries(first);
    SplitAfterJoin(first);
    UpdatedFiltersShape(filters, driver, true);
  }

  /** Removing twice: the second run finds nothing to remove and writes nothing. */
  lemma RemoveTwiceWritesNothing(filters: seq<string>, driver: string)
    requires Entries(filters)
    ensures var first := UpdatedFilters(filters, driver, false);
      && !WritesBack(Strings(MakeMultiSz(first)), driver, false)
      && UpdatedFilters(Strings(MakeMultiSz(first)), driver, false) == first
  {
    var kept := Without(filters, driver);
    assert kept + [] == kept;
    WithoutKeepsEntries(filters, driver);
    SplitAfterJoin(kept);
    WithoutOmits(filters, driver);
    WithoutOmits(kept, driver);
  }

  // ---------------------------------------------------------------------
  // enum_device_info
  // ---------------------------------------------------------------------

  const ERROR_SUCCESS: nat := 0
  const ERROR_NO_MORE_ITEMS: nat := 259

  /** Where a walk over a device list ended: whether the visitor asked to
      stop, the visitor's state, and how many items it was shown. */
  datatype Walk<S> = Walk(stopped: bool, state: S, visited: nat)

  /** Offering items to a visitor in order, until it answers true. */
  function Visit<S, T>(visit: (S, T) -> (bool, S), s0: S, items: seq<T>): (w: Walk<S>)
    ensures w.visited <= |items|
    ensures !w.stopped ==> w.visited == |items|
    ensures w.stopped ==> 0 < w.visited
    decreases |items|
  {
    if |items| == 0 then Walk(false, s0, 0)
    else
      var w := Visit(visit, s0, items[..|items| - 1]);
      if w.stopped then w
      else
        var r := visit(w.state, items[|items| - 1]);
        Walk(r.0, r.1, |items|)
  }

  /** Once the visitor has asked to stop, later items change nothing. */
  lemma {:induction false} VisitStopsForGood<S, T>(visit: (S, T) -> (bool, S), s0: S, items: seq<T>, j: nat)
    requires j <= |items| && Visit(visit, s0, items[..j]).stopped
    ensures Visit(visit, s0, items) == Visit(visit, s0, items[..j])
    decreases |items|
  {
    if j < |items| {
      assert items[..|items| - 1][..j] == items[..j];
      VisitStopsForGood(visit, s0, items[..|items| - 1], j);
    } else {
      assert items[..j] == items;
    }
  }

  /** enum_device_info: the items are SetupDiEnumDeviceInfo's answers for
      indices 0, 1, 2, ...; after the last one it fails with endError. The
      visitor's captured state is threaded through explicitly. */
  method EnumDeviceInfo<S, T>(items: seq<T>, endError: nat, visit: (S, T) -> (bool, S), s0: S)
    returns (err: nat, s: S)
    ensures var w := Visit(visit, s0, items);
      && s == w.state
      && err == (if w.stopped || endError == ERROR_NO_MORE_ITEMS then ERROR_SUCCESS else endError)
  {
    var i := 0;
    s := s0;
    while true
      invariant i <= |items|
      invariant Visit(visit, s0, items[..i]) == Walk(false, s, i)
      decreases |items| - i
    {
      if i < |items| {
        var r := visit(s, items[i]);
        assert items[..i + 1][..i] == items[..i];
        s := r.1;
        if r.0 {
          VisitStopsForGood(visit, s0, items, i + 1);
          return ERROR_SUCCESS, s;
        }
      } else {
        assert items[..i] == items;
        if endError == ERROR_NO_MORE_ITEMS {
          return ERROR_SUCCESS, s;
        }
        return endError, s;
      }
      i := i + 1;
    }
  }

  // ---------------------------------------------------------------------
  // uninstall_device and remove_devnode
  // ---------------------------------------------------------------------

  /** What the setup API reports about one device: its hardware id list
      (None when the property cannot be read), its instance id, and what
      DiUninstallDevice would answer for it. */
  datatype Device = Device(
    hardwareIds: Option<string>,
    instanceId: Option<string>,
    uninstallOk: bool,
    needReboot: bool
  )

  /** The state uninstall_device updates: the reboot flag, the instance ids
      a dry run prints, and the devices handed to DiUninstallDevice. */
  datatype RemoveLog = RemoveLog(reboot: bool, printed: seq<string>, uninstalled: seq<Device>)

  /** A device matches when its whole hardware id list is the one-entry list. */
  predicate Matches(d: Device, hwids: string)
  {
    d.hardwareIds.Some? && |d.hardwareIds.value| > 0 && d.hardwareIds.value == hwids
  }

  /** uninstall_device as a visitor: it never asks to stop. */
  function UninstallDevice(hwids: string, dryRun: bool, log: RemoveLog, d: Device): (r: (bool, RemoveLog))
    ensures !r.0
    ensures !Matches(d, hwids) ==> r.1 == log
    ensures dryRun ==> r.1.uninstalled == log.uninstalled && r.1.reboot == log.reboot
  {
    if !Matches(d, hwids) then (false, log)
    else if dryRun then
      (false, if d.instanceId.Some? && |d.instanceId.value| > 0
              then log.(printed := log.printed + [d.instanceId.value]) else log)
    else
      (false, log.(uninstalled := log.uninstalled + [d],
                   reboot := log.reboot || (d.uninstallOk && d.needReboot)))
  }

  /** The devices among ds that match, in order. */
  function Matching(ds: seq<Device>, hwids: string): seq<Device>
    decreases |ds|
  {
    if |ds| == 0 then []
    else Matching(ds[..|ds| - 1], hwids) + (if Matches(ds[|ds| - 1], hwids) then [ds[|ds| - 1]] else [])
  }

  /** The instance ids a dry run can print for ds. */
  function InstanceIds(ds: seq<Device>): seq<string>
    decreases |ds|
  {
    if |ds| == 0 then []
    else
      var d := ds[|ds| - 1];
      InstanceIds(ds[..|ds| - 1]) + (if d.instanceId.Some? && |d.instanceId.value| > 0 then [d.instanceId.value] else [])
  }

  /** Some device was uninstalled and asked for a reboot. */
  predicate AnyNeedsReboot(ds: seq<Device>)
  {
    exists k :: 0 <= k < |ds| && ds[k].uninstallOk && ds[k].needReboot
  }

  /** One more uninstalled device asks for a reboot exactly when it needs one
      itself or an earlier one did. */
  lemma RebootAfter(u: seq<Device>, d: Device)
    ensures AnyNeedsReboot(u + [d]) == (AnyNeedsReboot(u) || (d.uninstallOk && d.needReboot))
  {
    var v := u + [d];
    if AnyNeedsReboot(u) {
      var k :| 0 <= k < |u| && u[k].uninstallOk && u[k].needReboot;
      assert v[k] == u[k];
    }
    if AnyNeedsReboot(v) {
      var k :| 0 <= k < |v| && v[k].uninstallOk && v[k].needReboot;
      if k < |u| {
        assert u[k] == v[k];
      }
    }
    assert v[|u|] == d;
  }

  const NoLog: RemoveLog := RemoveLog(false, [], [])

  /** Walking uninstall_device over a device list: every device is visited;
      a dry run uninstalls nothing and prints the matching devices' instance
      ids; otherwise exactly the matching devices are uninstalled, in order,
      and a reboot is asked for when one of them needs it. */
  lemma {:induction false} RemoveWalk(hwids: string, dryRun: bool, ds: seq<Device>)
    ensures var w := Visit((l: RemoveLog, d: Device) => UninstallDevice(hwids, dryRun, l, d), NoLog, ds);
      && !w.stopped && w.visited == |ds|
      && w.state.uninstalled == (if dryRun then [] else Matching(ds, hwids))
      && w.state.printed == (if dryRun then InstanceIds(Matching(ds, hwids)) else [])
      && w.state.reboot == AnyNeedsReboot(w.state.uninstalled)
    decreases |ds|
  {
    var f := (l: RemoveLog, d: Device) => UninstallDevice(hwids, dryRun, l, d);
    if |ds| > 0 {
      var front := ds[..|ds| - 1];
      var d := ds[|ds| - 1];
      RemoveWalk(hwids, dryRun, front);
      var w0 := Visit(f, NoLog, front);
      var m0 := Matching(front, hwids);
      if Matches(d, hwids) {
        assert Matching(ds, hwids) == m0 + [d];
        assert InstanceIds(m0 + [d])
            == InstanceIds(m0) + (if d.instanceId.Some? && |d.instanceId.value| > 0 then [d.instanceId.value] else []);
        if !dryRun {
          RebootAfter(w0.state.uninstalled, d);
        }
      } else {
        assert Matching(ds, hwids) == m0;
      }
    }
  }

  /** remove_devnode: classDevsOk stands for SetupDiGetClassDevs; devices and
      endError describe the enumeration; the returned log says what was
      printed, uninstalled and whether a reboot is prompted. */
  method RemoveDevnode(hwid: string, dryRun: bool, classDevsOk: bool, devices: seq<Device>, endError: nat)
    returns (ok: bool, log: RemoveLog)
    ensures ok == classDevsOk
    ensures !classDevsOk ==> log == NoLog
    ensures classDevsOk ==>
      && log.uninstalled == (if dryRun then [] else Matching(devices, MakeHwid(hwid)))
      && log.printed == (if dryRun then InstanceIds(Matching(devices, MakeHwid(hwid))) else [])
      && log.reboot == AnyNeedsReboot(log.uninstalled)
  {
    if !classDevsOk {
      return false, NoLog;
    }
    var hwids := MakeHwid(hwid);
    var visitor := (l: RemoveLog, d: Device) => UninstallDevice(hwids, dryRun, l, d);
    var err;
    err, log := EnumDeviceInfo(devices, endError, visitor, NoLog);
    RemoveWalk(hwids, dryRun, devices);
    ok := true;
  }
}
