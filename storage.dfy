/** The persistence adapter (services/storageService.ts): one remote JSON
    document holds every submission, newest first. Saving is a
    read-modify-write of the whole document; listing is one read; clearing
    is one write of the empty array. The network is abstracted away: each
    fetch is passed in as the outcome it had, and the random id, the clock
    and the user-agent string are passed in as values. */
module Storage {
  import opened Types
  import opened Text

  /** The parsed body of a successful read: an array, or any other JSON value. */
  datatype Json = JArray(items: seq<FormResponse>) | JOther

  /** How a GET of the document ended. ReadThrew stands for a rejected
      `fetch` and for a body that `json()` could not parse. */
  datatype ReadOutcome = ReadThrew | ReadNotOk | ReadOk(body: Json)

  /** How a POST replacing the document ended. */
  datatype WriteOutcome = WriteThrew | WriteNotOk | WriteOk

  /** The alternatives of the case-insensitive user-agent pattern. */
  const MOBILE_KEYWORDS: seq<string> :=
    ["Android", "webOS", "iPhone", "iPad", "iPod", "BlackBerry", "IEMobile", "Opera Mini"]

  const MOBILE: string := "Mobile"
  const DESKTOP: string := "Desktop"

  const SYNC_OK_MESSAGE: string := "Response synced to cloud successfully!"
  const SYNC_FAILED_MESSAGE: string := "Cloud sync failed. Connection issue."

  /** The collection a read yields: the body itself when the read succeeded
      with an array, and the empty list on every failure and on any other body. */
  function ListFromRead(read: ReadOutcome): (r: seq<FormResponse>)
    ensures read.ReadOk? && read.body.JArray? ==> r == read.body.items
    ensures read.ReadThrew? || read.ReadNotOk? || read == ReadOk(JOther) ==> r == []
  {
    match read
    case ReadOk(JArray(items)) => items
    case _ => []
  }

  /** Some keyword, lower-cased, occurs in the (already lower-cased) agent string. */
  function AnyKeywordIn(lowerAgent: string, keywords: seq<string>): (r: bool)
    ensures r <==> exists j :: 0 <= j < |keywords| && Contains(lowerAgent, Lower(keywords[j]))
    decreases |keywords|
  {
    if keywords == [] then false
    else
      var rest := AnyKeywordIn(lowerAgent, keywords[1..]);
      assert forall j :: 1 <= j < |keywords| ==> keywords[j] == keywords[1..][j - 1];
      Contains(lowerAgent, Lower(keywords[0])) || rest
  }

  /** The user-agent test: some mobile keyword occurs in it, ignoring ASCII case. */
  predicate IsMobileAgent(userAgent: string)
  {
    AnyKeywordIn(Lower(userAgent), MOBILE_KEYWORDS)
  }

  /** IsMobileAgent holds exactly when one of the eight keywords occurs in
      the agent string, both lower-cased. */
  lemma MobileAgentIff(userAgent: string)
    ensures IsMobileAgent(userAgent) <==>
      exists j :: 0 <= j < |MOBILE_KEYWORDS| && Contains(Lower(userAgent), Lower(MOBILE_KEYWORDS[j]))
  {
  }

  /** The device a user-agent string is classified as: "Mobile" exactly when
      it passes the mobile test, "Desktop" otherwise. */
  function DeviceOf(userAgent: string): (d: string)
    ensures d == MOBILE || d == DESKTOP
    ensures d == MOBILE <==> IsMobileAgent(userAgent)
  {
    if IsMobileAgent(userAgent) then MOBILE else DESKTOP
  }

  /** The classification does not depend on the case of the agent string. */
  lemma DeviceIgnoresCase(userAgent: string)
    ensures DeviceOf(Lower(userAgent)) == DeviceOf(userAgent)
  {
    LowerIdempotent(userAgent);
  }

  /** An agent string that is exactly a keyword in capitals is Mobile. */
  lemma DeviceExampleMobile()
    ensures DeviceOf("IPHONE") == MOBILE
  {
    LowerKeepsLowercase("iphone");
    assert "IPHONE" == ['I'] + ['P'] + ['H'] + ['O'] + ['N'] + ['E'];
    assert Lower("IPHONE") == "iphone";
    assert Lower("iPhone") == "iphone" by {
      assert "iPhone" == ['i', 'P'] + "hone";
      LowerKeepsLowercase("hone");
    }
    ContainsSelf("iphone");
    assert MOBILE_KEYWORDS[2] == "iPhone";
  }

  /** The empty string contains no non-empty keyword. */
  lemma {:induction false} NoKeywordInEmpty(keywords: seq<string>)
    requires forall j :: 0 <= j < |keywords| ==> keywords[j] != []
    ensures !AnyKeywordIn("", keywords)
  {
    forall j | 0 <= j < |keywords|
      ensures !Contains("", Lower(keywords[j]))
    {
      assert |Lower(keywords[j])| == |keywords[j]| > 0;
    }
  }

  /** An empty agent string is Desktop. */
  lemma DeviceExampleDesktop()
    ensures DeviceOf("") == DESKTOP
  {
    assert Lower("") == "";
    NoKeywordInEmpty(MOBILE_KEYWORDS);
  }

  /** The record a save creates: the user's four fields unchanged, plus the
      given id, the given clock reading and the classified device. */
  function NewRecord(input: ResponseInput, id: string, now: int, userAgent: string): (r: FormResponse)
    ensures r.name == input.name && r.email == input.email
    ensures r.category == input.category && r.message == input.message
    ensures r.id == id && r.timestamp == now
    ensures r.device == DeviceOf(userAgent)
    ensures r.device == MOBILE || r.device == DESKTOP
  {
    FormResponse(id, input.name, input.email, input.category, input.message, now, DeviceOf(userAgent))
  }

  /** `xs.unshift(x)`: `x` becomes the head, the old list follows in order. */
  function Unshift(xs: seq<FormResponse>, x: FormResponse): (r: seq<FormResponse>)
    ensures |r| == |xs| + 1 && r[0] == x && r[1..] == xs
  {
    [x] + xs
  }

  /** The document after a save of `record`: the record prepended to what
      the read yielded when the write succeeded, the old document otherwise. */
  function SavedCloud(cloud: seq<FormResponse>, record: FormResponse, read: ReadOutcome,
                      write: WriteOutcome): (r: seq<FormResponse>)
    ensures write.WriteOk? ==>
      |r| == |ListFromRead(read)| + 1 && r[0] == record && r[1..] == ListFromRead(read)
    ensures !write.WriteOk? ==> r == cloud
  {
    if write.WriteOk? then Unshift(ListFromRead(read), record) else cloud
  }

  /** What a save reports: success exactly when the write succeeded. */
  function SaveResult(write: WriteOutcome): (r: StorageResult)
    ensures r.success <==> write.WriteOk?
    ensures r.message == if write.WriteOk? then SYNC_OK_MESSAGE else SYNC_FAILED_MESSAGE
  {
    if write.WriteOk? then StorageResult(true, SYNC_OK_MESSAGE) else StorageResult(false, SYNC_FAILED_MESSAGE)
  }

  /** The document after a clear: empty when the write succeeded. */
  function ClearedCloud(cloud: seq<FormResponse>, write: WriteOutcome): (r: seq<FormResponse>)
    ensures write.WriteOk? ==> r == []
    ensures !write.WriteOk? ==> r == cloud
  {
    if write.WriteOk? then [] else cloud
  }

  /** The adapter together with the remote document it reads and replaces. */
  class StorageService {
    /** The document as stored remotely. */
    var cloud: seq<FormResponse>

    constructor (initial: seq<FormResponse>)
      ensures cloud == initial
    {
      cloud := initial;
    }

    /** saveResponse: read the document (a failed read counts as the empty
        list), prepend the new record, write the whole list back. Every
        failure ends in the failure result; nothing is raised. */
    method SaveResponse(input: ResponseInput, read: ReadOutcome, write: WriteOutcome,
                        id: string, now: int, userAgent: string) returns (result: StorageResult)
      modifies this
      ensures result == SaveResult(write)
      ensures cloud == SavedCloud(old(cloud), NewRecord(input, id, now, userAgent), read, write)
    {
      var responses: seq<FormResponse> := [];
      if read.ReadOk? {
        responses := if read.body.JArray? then read.body.items else [];
      }
      var newResponse := NewRecord(input, id, now, userAgent);
      responses := Unshift(responses, newResponse);
      if write.WriteOk? {
        cloud := responses;
        result := StorageResult(true, SYNC_OK_MESSAGE);
      } else {
        result := StorageResult(false, SYNC_FAILED_MESSAGE);
      }
    }

    /** getAllResponses: the body when the read succeeded with an array, the
        empty list otherwise. */
    method GetAllResponses(read: ReadOutcome) returns (responses: seq<FormResponse>)
      ensures responses == ListFromRead(read)
    {
      if read.ReadThrew? || read.ReadNotOk? {
        return [];
      }
      responses := if read.body.JArray? then read.body.items else [];
    }

    /** clearResponses: write the empty array; the outcome is not inspected
        and nothing is raised. */
    method ClearResponses(write: WriteOutcome)
      modifies this
      ensures cloud == ClearedCloud(old(cloud), write)
    {
      if write.WriteOk? {
        cloud := [];
      }
    }
  }

  /** A read that sees the document as it is stored. */
  function ReadOf(cloud: seq<FormResponse>): ReadOutcome
  {
    ReadOk(JArray(cloud))
  }

  /** Save followed by list, with nobody writing in between and both the
      write and the read succeeding: the list starts with the new record and
      continues with what the save's own read yielded. */
  lemma SaveThenList(cloud: seq<FormResponse>, input: ResponseInput, read: ReadOutcome,
                     id: string, now: int, userAgent: string)
    ensures var listed := ListFromRead(ReadOf(SavedCloud(cloud, NewRecord(input, id, now, userAgent), read, WriteOk)));
      |listed| == |ListFromRead(read)| + 1 &&
      listed[1..] == ListFromRead(read) &&
      listed[0] == NewRecord(input, id, now, userAgent) &&
      listed[0].name == input.name && listed[0].email == input.email &&
      listed[0].category == input.category && listed[0].message == input.message &&
      listed[0].id == id && listed[0].timestamp == now &&
      (listed[0].device == MOBILE || listed[0].device == DESKTOP)
  {
  }

  /** Two clears in a row leave the document empty if either write went
      through, and a following read of it lists nothing. */
  lemma ClearTwice(cloud: seq<FormResponse>, first: WriteOutcome, second: WriteOutcome)
    requires first.WriteOk? || second.WriteOk?
    ensures ClearedCloud(ClearedCloud(cloud, first), second) == []
    ensures ListFromRead(ReadOf(ClearedCloud(ClearedCloud(cloud, first), second))) == []
  {
  }

  /** The document after saving the records `recs` in order, each save
      reading the current document and writing successfully (no other writer). */
  function SubmitAll(cloud: seq<FormResponse>, recs: seq<FormResponse>): seq<FormResponse>
    decreases |recs|
  {
    if recs == [] then cloud
    else SubmitAll(SavedCloud(cloud, recs[0], ReadOf(cloud), WriteOk), recs[1..])
  }

  /** `recs` in reverse order. */
  function Reversed(recs: seq<FormResponse>): (r: seq<FormResponse>)
    ensures |r| == |recs|
    decreases |recs|
  {
    if recs == [] then [] else Reversed(recs[1..]) + [recs[0]]
  }

  /** Position `i` of the reversal holds the element `i` places from the end. */
  lemma {:induction false} ReversedAt(recs: seq<FormResponse>, i: int)
    requires 0 <= i < |recs|
    ensures Reversed(recs)[i] == recs[|recs| - 1 - i]
    decreases |recs|
  {
    var rest := Reversed(recs[1..]);
    assert Reversed(recs) == rest + [recs[0]];
    if i < |recs| - 1 {
      ReversedAt(recs[1..], i);
      assert (rest + [recs[0]])[i] == rest[i];
    }
  }

  /** Successive saves stack up newest first: the document is the new
      records in reverse order of saving, followed by the old document. */
  lemma {:induction false} SubmitAllNewestFirst(cloud: seq<FormResponse>, recs: seq<FormResponse>)
    ensures SubmitAll(cloud, recs) == Reversed(recs) + cloud
    decreases |recs|
  {
    if recs != [] {
      var next := SavedCloud(cloud, recs[0], ReadOf(cloud), WriteOk);
      assert next == [recs[0]] + cloud;
      SubmitAllNewestFirst(next, recs[1..]);
      assert Reversed(recs[1..]) + ([recs[0]] + cloud) == (Reversed(recs[1..]) + [recs[0]]) + cloud;
    }
  }

  /** Timestamps never increase from the head of the list to its tail. */
  ghost predicate NewestFirst(rs: seq<FormResponse>)
  {
    forall i, j :: 0 <= i < j < |rs| ==> rs[i].timestamp >= rs[j].timestamp
  }

  /** Saves made with a clock that does not run backwards, onto a document
      that is newest first and no newer than the first save, leave it newest first. */
  lemma {:induction false} SubmitAllKeepsNewestFirst(cloud: seq<FormResponse>, recs: seq<FormResponse>)
    requires NewestFirst(cloud)
    requires forall i, j :: 0 <= i < j < |recs| ==> recs[i].timestamp <= recs[j].timestamp
    requires |recs| > 0 ==> forall k :: 0 <= k < |cloud| ==> cloud[k].timestamp <= recs[0].timestamp
    ensures NewestFirst(SubmitAll(cloud, recs))
    decreases |recs|
  {
    if recs != [] {
      var next := SavedCloud(cloud, recs[0], ReadOf(cloud), WriteOk);
      assert next == [recs[0]] + cloud;
      assert NewestFirst(next) by {
        forall i, j | 0 <= i < j < |next|
          ensures next[i].timestamp >= next[j].timestamp
        {
          if i > 0 {
            assert next[i] == cloud[i - 1] && next[j] == cloud[j - 1];
          }
        }
      }
      var rest := recs[1..];
      assert forall i, j :: 0 <= i < j < |rest| ==> rest[i].timestamp <= rest[j].timestamp by {
        forall i, j | 0 <= i < j < |rest|
          ensures rest[i].timestamp <= rest[j].timestamp
        {
          assert rest[i] == recs[i + 1] && rest[j] == recs[j + 1];
        }
      }
      if |rest| > 0 {
        assert recs[0].timestamp <= rest[0].timestamp by {
          assert rest[0] == recs[1];
        }
      }
      SubmitAllKeepsNewestFirst(next, rest);
    }
  }
}
