/** The request middleware: the upload size gate, which refuses a media upload request carrying an
    oversized file and otherwise passes the request on, and the pass-through timeout middleware. */
module Middleware {
  import opened Wrappers
  import opened Text
  import opened MediaProcessor

  /** The form fields whose presence marks a media upload. */
  const MediaFields: seq<string> := ["audio_file", "video_file", "document_file"]

  /** An incoming request. `files` is the `items()` view of the uploaded files: field name and
      file, in order. `startTime` is the attribute the size gate sets on the way through. */
  class HttpRequest {
    const httpMethod: string
    const files: seq<(string, Upload)>
    var startTime: Option<nat>

    constructor (httpMethod: string, files: seq<(string, Upload)>)
      ensures this.httpMethod == httpMethod && this.files == files
      ensures startTime == None
    {
      this.httpMethod := httpMethod;
      this.files := files;
      startTime := None;
    }
  }

  /** The response a middleware hands back: the downstream response as it is, or a JSON error
      with a status code. */
  datatype HttpResponse<+R> = Downstream(response: R) | JsonError(status: nat, error: string)

  /** `field in request.FILES`. */
  predicate HasField(files: seq<(string, Upload)>, field: string) {
    exists k | 0 <= k < |files| :: files[k].0 == field
  }

  /** The gate looks at POST requests that carry at least one media field. */
  predicate GateApplies(httpMethod: string, files: seq<(string, Upload)>) {
    httpMethod == "POST" && exists field | field in MediaFields :: HasField(files, field)
  }

  /** The position of the first file, from `from` on, whose size is strictly above `limit`. */
  function FirstOversizedFrom(files: seq<(string, Upload)>, limit: nat, from: nat): (r: Option<nat>)
    requires from <= |files|
    decreases |files| - from
    ensures r.Some? ==> from <= r.value < |files| && files[r.value].1.size > limit
    ensures r.Some? ==> forall k :: from <= k < r.value ==> files[k].1.size <= limit
    ensures r.None? ==> forall k :: from <= k < |files| ==> files[k].1.size <= limit
  {
    if from == |files| then None
    else if files[from].1.size > limit then Some(from)
    else FirstOversizedFrom(files, limit, from + 1)
  }

  /** The first file, in any field, whose size is strictly above `limit`; a file of exactly
      `limit` bytes is admitted. */
  function FirstOversized(files: seq<(string, Upload)>, limit: nat): (r: Option<nat>)
    ensures r.Some? ==> r.value < |files| && files[r.value].1.size > limit
                        && forall k :: 0 <= k < r.value ==> files[k].1.size <= limit
    ensures r.None? <==> forall k :: 0 <= k < |files| ==> files[k].1.size <= limit
  {
    FirstOversizedFrom(files, limit, 0)
  }

  /** The loop over `request.FILES.items()` with its early return. */
  method ScanUploads(files: seq<(string, Upload)>, limit: nat) returns (r: Option<nat>)
    ensures r == FirstOversized(files, limit)
  {
    var i := 0;
    while i < |files|
      invariant 0 <= i <= |files|
      invariant FirstOversized(files, limit) == FirstOversizedFrom(files, limit, i)
    {
      if files[i].1.size > limit {
        return Some(i);
      }
      i := i + 1;
    }
    return None;
  }

  /** The 413 message: "File size ", the size in decimal, " bytes exceeds maximum allowed size of ",
      the limit in decimal and " bytes", with nothing else in between. */
  function SizeMessage(size: nat, limit: nat): (m: string)
    ensures StartsWith(m, "File size ")
    ensures OccursAt(NatToString(size), m, 10)
    ensures DigitsValue(m[10..10 + |NatToString(size)|]) == size
    ensures OccursAt(" bytes exceeds maximum allowed size of ", m, 10 + |NatToString(size)|)
    ensures EndsWith(m, NatToString(limit) + " bytes")
    ensures |m| == 10 + |NatToString(size)| + 39 + |NatToString(limit)| + 6
  {
    MessageLayout("File size ", NatToString(size), " bytes exceeds maximum allowed size of ",
                  NatToString(limit) + " bytes");
    "File size " + NatToString(size) + " bytes exceeds maximum allowed size of " + (NatToString(limit) + " bytes")
  }

  /** A message built as lead, value, middle text and ending starts with the lead, holds the
      value right after it and the middle text after that, and ends with the ending. */
  lemma MessageLayout(lead: string, value: string, middle: string, ending: string)
    ensures var m := lead + value + middle + ending;
      StartsWith(m, lead) && OccursAt(value, m, |lead|) && m[|lead|..|lead| + |value|] == value
      && OccursAt(middle, m, |lead| + |value|) && EndsWith(m, ending)
  {
    OccursInMiddle(lead, value, middle + ending);
    OccursInMiddle(lead + value, middle, ending);
    assert lead + value + middle + ending == lead + value + (middle + ending);
    Concatenation(lead, value + (middle + ending));
    Concatenation(lead + value + middle, ending);
  }

  /** An exception from the rest of the stack, as the gate reports it: a normal response passes
      through, an exception becomes a 500 naming it. */
  function ServerError<R>(downstream: Outcome<R>): (r: HttpResponse<R>)
    ensures r.Downstream? <==> downstream.Returns?
    ensures r.Downstream? ==> r.response == downstream.value
    ensures r.JsonError? ==> r.status == 500 && r.error == "Internal server error: " + downstream.message
  {
    match downstream
    case Returns(r) => Downstream(r)
    case Raises(e) => JsonError(500, "Internal server error: " + e)
  }

  /** `LargeFileUploadMiddleware`. `limit` is the configured `FILE_UPLOAD_MAX_MEMORY_SIZE`. */
  class LargeFileUploadMiddleware {
    const limit: nat

    constructor (limit: nat)
      ensures this.limit == limit
    {
      this.limit := limit;
    }

    /** `__call__`: `now` is the clock reading, `downstream` what the rest of the stack does with
        the request. A refused request is answered without consulting the rest of the stack and
        without being stamped. */
    method Call<R>(request: HttpRequest, now: nat, downstream: Outcome<R>) returns (response: HttpResponse<R>)
      modifies request
      ensures GateApplies(request.httpMethod, request.files) && FirstOversized(request.files, limit).Some? ==>
                && response == JsonError(413, SizeMessage(request.files[FirstOversized(request.files, limit).value].1.size, limit))
                && request.startTime == old(request.startTime)
      ensures !(GateApplies(request.httpMethod, request.files) && FirstOversized(request.files, limit).Some?) ==>
                && response == ServerError(downstream)
                && request.startTime == Some(now)
    {
      if request.httpMethod == "POST" && exists field | field in MediaFields :: HasField(request.files, field) {
        var oversized := ScanUploads(request.files, limit);
        if oversized.Some? {
          return JsonError(413, SizeMessage(request.files[oversized.value].1.size, limit));
        }
      }
      request.startTime := Some(now);
      match downstream
      case Returns(r) =>
        response := Downstream(r);
      case Raises(e) =>
        response := JsonError(500, "Internal server error: " + e);
    }
  }

  /** The gate refuses exactly the media POST requests that hold a file above the limit, and the
      refusal names the first such file's size. */
  lemma GateRefusesExactly(httpMethod: string, files: seq<(string, Upload)>, limit: nat)
    ensures (GateApplies(httpMethod, files) && FirstOversized(files, limit).Some?)
        <==> (httpMethod == "POST" && (HasField(files, "audio_file") || HasField(files, "video_file") || HasField(files, "document_file"))
              && exists k :: 0 <= k < |files| && files[k].1.size > limit)
  {
    assert MediaFields[0] == "audio_file" && MediaFields[1] == "video_file" && MediaFields[2] == "document_file";
  }

  /** `TimeoutMiddleware`: it hands back what the rest of the stack does, unchanged. */
  class TimeoutMiddleware {
    constructor ()
    {
    }

    method Call<R>(request: HttpRequest, downstream: Outcome<R>) returns (response: Outcome<R>)
      ensures response == downstream
    {
      response := downstream;
    }
  }
}
