/** The review dashboard (components/AdminFrame.tsx): the list loaded from
    the adapter, a case-insensitive search over name, email and message,
    and the three counters of the stats header. */
module Dashboard {
  import opened Types
  import opened Text
  import opened Storage

  /** Twenty-four hours in milliseconds, the window of the "New (24h)" counter. */
  const DAY_MS: int := 86400000

  /** The search test for one record: the lower-cased filter occurs in the
      lower-cased name, email or message. */
  predicate Matches(r: FormResponse, filter: string)
  {
    var f := Lower(filter);
    Contains(Lower(r.name), f) || Contains(Lower(r.email), f) || Contains(Lower(r.message), f)
  }

  /** `a` is `b` with some elements left out, the rest kept in order. */
  predicate IsSubsequence(a: seq<FormResponse>, b: seq<FormResponse>)
    decreases |b|
  {
    if a == [] then true
    else if b == [] then false
    else (a[0] == b[0] && IsSubsequence(a[1..], b[1..])) || IsSubsequence(a, b[1..])
  }

  /** `filteredResponses`: the records that pass the search test, in their
      original order. */
  function FilterResponses(rs: seq<FormResponse>, filter: string): (r: seq<FormResponse>)
    ensures |r| <= |rs|
    ensures IsSubsequence(r, rs)
    ensures forall x :: x in r <==> x in rs && Matches(x, filter)
    decreases |rs|
  {
    if rs == [] then []
    else if Matches(rs[0], filter) then [rs[0]] + FilterResponses(rs[1..], filter)
    else FilterResponses(rs[1..], filter)
  }

  /** With an empty search box every record is shown, in order. */
  lemma {:induction false} EmptyFilterKeepsAll(rs: seq<FormResponse>)
    ensures FilterResponses(rs, "") == rs
    decreases |rs|
  {
    if rs != [] {
      assert Lower("") == "";
      EmptyFilterKeepsAll(rs[1..]);
    }
  }

  /** Searching the search result again changes nothing. */
  lemma {:induction false} FilterIdempotent(rs: seq<FormResponse>, filter: string)
    ensures FilterResponses(FilterResponses(rs, filter), filter) == FilterResponses(rs, filter)
    decreases |rs|
  {
    if rs != [] {
      FilterIdempotent(rs[1..], filter);
    }
  }

  /** The search ignores the case of the filter text. */
  lemma {:induction false} FilterIgnoresCase(rs: seq<FormResponse>, filter: string)
    ensures FilterResponses(rs, Lower(filter)) == FilterResponses(rs, filter)
    decreases |rs|
  {
    if rs != [] {
      LowerIdempotent(filter);
      FilterIgnoresCase(rs[1..], filter);
    }
  }

  /** Searching a concatenation searches each part. */
  lemma {:induction false} FilterAppend(a: seq<FormResponse>, b: seq<FormResponse>, filter: string)
    ensures FilterResponses(a + b, filter) == FilterResponses(a, filter) + FilterResponses(b, filter)
    decreases |a|
  {
    if a == [] {
      assert a + b == b;
    } else {
      assert (a + b)[0] == a[0] && (a + b)[1..] == a[1..] + b;
      FilterAppend(a[1..], b, filter);
    }
  }

  /** A record whose three searched fields all lack some character of the
      lower-cased filter is not shown. */
  lemma MissesWhenCharAbsent(r: FormResponse, filter: string, k: int)
    requires 0 <= k < |filter|
    requires var c := Lower(filter)[k]; c !in Lower(r.name) && c !in Lower(r.email) && c !in Lower(r.message)
    ensures !Matches(r, filter)
  {
    var f := Lower(filter);
    MissingCharNotContained(Lower(r.name), f, k);
    MissingCharNotContained(Lower(r.email), f, k);
    MissingCharNotContained(Lower(r.message), f, k);
  }

  /** The number of records whose device is exactly `device`. */
  function CountDevice(rs: seq<FormResponse>, device: string): (n: nat)
    ensures n <= |rs|
    decreases |rs|
  {
    if rs == [] then 0
    else (if rs[0].device == device then 1 else 0) + CountDevice(rs[1..], device)
  }

  /** Every record's device is "Mobile" or "Desktop". */
  ghost predicate OnlyKnownDevices(rs: seq<FormResponse>)
  {
    forall i :: 0 <= i < |rs| ==> rs[i].device == MOBILE || rs[i].device == DESKTOP
  }

  /** The "From Mobile" and "From Desktop" counters never add up to more
      than "Total Syncs", and they add up to it exactly when no record
      carries some other device string. */
  lemma {:induction false} DeviceCountsPartition(rs: seq<FormResponse>)
    ensures CountDevice(rs, MOBILE) + CountDevice(rs, DESKTOP) <= |rs|
    ensures CountDevice(rs, MOBILE) + CountDevice(rs, DESKTOP) == |rs| <==> OnlyKnownDevices(rs)
    decreases |rs|
  {
    if rs != [] {
      DeviceCountsPartition(rs[1..]);
      assert MOBILE != DESKTOP;
      if OnlyKnownDevices(rs) {
        assert forall i :: 0 <= i < |rs[1..]| ==> rs[1..][i] == rs[i + 1];
      }
      if OnlyKnownDevices(rs[1..]) && (rs[0].device == MOBILE || rs[0].device == DESKTOP) {
        forall i | 0 <= i < |rs|
          ensures rs[i].device == MOBILE || rs[i].device == DESKTOP
        {
          if i > 0 {
            assert rs[i] == rs[1..][i - 1];
          }
        }
      }
    }
  }

  /** A document built only by this application's own saves holds only
      "Mobile" and "Desktop" records, so the two counters add up to the total. */
  lemma SavedRecordsCountFully(rs: seq<FormResponse>, inputs: seq<ResponseInput>, ids: seq<string>,
                               nows: seq<int>, agents: seq<string>)
    requires |inputs| == |ids| == |nows| == |agents| == |rs|
    requires forall i :: 0 <= i < |rs| ==> rs[i] == NewRecord(inputs[i], ids[i], nows[i], agents[i])
    ensures CountDevice(rs, MOBILE) + CountDevice(rs, DESKTOP) == |rs|
  {
    DeviceCountsPartition(rs);
  }

  /** The number of records less than a day old at clock reading `now`:
      `now - timestamp < 86400000` (a timestamp in the future counts). */
  function CountRecent(rs: seq<FormResponse>, now: int): (n: nat)
    ensures n <= |rs|
    decreases |rs|
  {
    if rs == [] then 0
    else (if now - rs[0].timestamp < DAY_MS then 1 else 0) + CountRecent(rs[1..], now)
  }

  /** "New (24h)" equals the total exactly when every record is less than a
      day old, and is zero exactly when none is. */
  lemma {:induction false} CountRecentBounds(rs: seq<FormResponse>, now: int)
    ensures CountRecent(rs, now) == |rs| <==> forall i :: 0 <= i < |rs| ==> now - rs[i].timestamp < DAY_MS
    ensures CountRecent(rs, now) == 0 <==> forall i :: 0 <= i < |rs| ==> now - rs[i].timestamp >= DAY_MS
    decreases |rs|
  {
    if rs != [] {
      CountRecentBounds(rs[1..], now);
      assert forall i :: 0 < i < |rs| ==> rs[i] == rs[1..][i - 1];
    }
  }

  /** The dashboard's state: the loaded list, the spinner flag and the
      search text. */
  class AdminFrame {
    var responses: seq<FormResponse>
    var loading: bool
    var filter: string

    /** Mounting starts with an empty list, the spinner on and no search. */
    constructor ()
      ensures responses == [] && loading && filter == ""
    {
      responses := [];
      loading := true;
      filter := "";
    }

    /** The rows of the table. */
    function Filtered(): (r: seq<FormResponse>)
      reads this
      ensures IsSubsequence(r, responses)
      ensures forall x :: x in r <==> x in responses && Matches(x, filter)
    {
      FilterResponses(responses, filter)
    }

    /** loadResponses: spinner on, fetch, replace the list wholesale, spinner off. */
    method LoadResponses(service: StorageService, read: ReadOutcome)
      modifies this
      ensures responses == ListFromRead(read)
      ensures !loading && filter == old(filter)
    {
      loading := true;
      var data := service.GetAllResponses(read);
      responses := data;
      loading := false;
    }

    /** Typing in the search box replaces the search text only. */
    method SetFilter(text: string)
      modifies this
      ensures filter == text
      ensures responses == old(responses) && loading == old(loading)
    {
      filter := text;
    }

    /** clearAll: only when the user confirms, clear the document and reload;
        otherwise nothing changes, here or remotely. */
    method ClearAll(service: StorageService, confirmed: bool, clear: WriteOutcome, reload: ReadOutcome)
      modifies this, service
      ensures confirmed ==> service.cloud == ClearedCloud(old(service.cloud), clear)
      ensures confirmed ==> responses == ListFromRead(reload) && !loading && filter == old(filter)
      ensures !confirmed ==> unchanged(this) && unchanged(service)
    {
      if confirmed {
        service.ClearResponses(clear);
        LoadResponses(service, reload);
      }
    }
  }
}
