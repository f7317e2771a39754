/**
 * The two closed lookup tables of the tracker client: job-type labels and
 * application-status labels to the integer codes the tracker API expects,
 * with the case-insensitive lookup the entry point of main.py applies to them.
 */
module Tables {
  import opened Wrappers

  /** JOB_TYPE_MAP of main.py, whose "full-time" -> 2 entry the script marks as assumed. */
  const JobTypeMap: map<string, int> :=
    map["internship" := 1, "part-time" := 3, "full-time" := 2]

  /** STATUS_MAP. */
  const StatusMap: map<string, int> :=
    map["applied" := 2, "saved" := 1, "screen" := 11, "interview" := 12, "offer" := 13,
        "withdrawn" := 21, "ghosted" := 22, "rejected" := 23, "accepted" := 24]

  predicate IsUpper(c: char) { 'A' <= c <= 'Z' }

  /** Lower-cases one character (ASCII letters only). */
  function LowerChar(c: char): (d: char)
    ensures !IsUpper(d)
    ensures !IsUpper(c) ==> d == c
    ensures IsUpper(c) ==> d as int - c as int == 'a' as int - 'A' as int
  {
    if IsUpper(c) then (c as int - 'A' as int + 'a' as int) as char else c
  }

  /** str.lower(), restricted to ASCII letters. */
  function ToLower(s: string): (r: string)
    ensures |r| == |s|
    ensures forall i :: 0 <= i < |r| ==> !IsUpper(r[i])
  {
    seq(|s|, i requires 0 <= i < |s| => LowerChar(s[i]))
  }

  /** Each character of the lower-cased string is the lower-cased character. */
  lemma ToLowerAt(s: string)
    ensures forall i :: 0 <= i < |s| ==> ToLower(s)[i] == LowerChar(s[i])
  {
  }

  /** Lower-casing twice is lower-casing once. */
  lemma ToLowerIdempotent(s: string)
    ensures ToLower(ToLower(s)) == ToLower(s)
  {
    var t := ToLower(s);
    ToLowerAt(s);
    ToLowerAt(t);
    assert forall i :: 0 <= i < |t| ==> ToLower(t)[i] == t[i];
  }

  /** JOB_TYPE_MAP[name.lower()], None standing for the KeyError. */
  function JobTypeCode(name: string): (r: Option<int>)
    ensures r.None? <==> ToLower(name) !in JobTypeMap
    ensures r.Some? ==> r.value in JobTypeMap.Values
  {
    var key := ToLower(name);
    if key in JobTypeMap then Some(JobTypeMap[key]) else None
  }

  /** STATUS_MAP[name.lower()], None standing for the KeyError. */
  function StatusCode(name: string): (r: Option<int>)
    ensures r.None? <==> ToLower(name) !in StatusMap
    ensures r.Some? ==> r.value in StatusMap.Values
  {
    var key := ToLower(name);
    if key in StatusMap then Some(StatusMap[key]) else None
  }

  /** Reverse reading of the job-type table, written by cases on the code. */
  function JobTypeLabel(code: int): (r: Option<string>)
  {
    match code
    case 1 => Some("internship")
    case 3 => Some("part-time")
    case 2 => Some("full-time")
    case _ => None
  }

  /** Reverse reading of the status table, written by cases on the code. */
  function StatusLabel(code: int): (r: Option<string>)
  {
    match code
    case 2 => Some("applied")
    case 1 => Some("saved")
    case 11 => Some("screen")
    case 12 => Some("interview")
    case 13 => Some("offer")
    case 21 => Some("withdrawn")
    case 22 => Some("ghosted")
    case 23 => Some("rejected")
    case 24 => Some("accepted")
    case _ => None
  }

  /** The job-type table is closed: exactly three labels, each with its code. */
  lemma JobTypeTable(name: string)
    ensures JobTypeCode(name).Some? <==> ToLower(name) in {"internship", "part-time", "full-time"}
    ensures ToLower(name) == "internship" ==> JobTypeCode(name) == Some(1)
    ensures ToLower(name) == "part-time" ==> JobTypeCode(name) == Some(3)
    ensures ToLower(name) == "full-time" ==> JobTypeCode(name) == Some(2)
  {
  }

  /** The status table is closed: exactly nine labels, each with its code. */
  lemma StatusTable(name: string)
    ensures StatusCode(name).Some? <==>
      ToLower(name) in {"applied", "saved", "screen", "interview", "offer",
                         "withdrawn", "ghosted", "rejected", "accepted"}
    ensures ToLower(name) == "applied" ==> StatusCode(name) == Some(2)
    ensures ToLower(name) == "saved" ==> StatusCode(name) == Some(1)
    ensures ToLower(name) == "screen" ==> StatusCode(name) == Some(11)
    ensures ToLower(name) == "interview" ==> StatusCode(name) == Some(12)
    ensures ToLower(name) == "offer" ==> StatusCode(name) == Some(13)
    ensures ToLower(name) == "withdrawn" ==> StatusCode(name) == Some(21)
    ensures ToLower(name) == "ghosted" ==> StatusCode(name) == Some(22)
    ensures ToLower(name) == "rejected" ==> StatusCode(name) == Some(23)
    ensures ToLower(name) == "accepted" ==> StatusCode(name) == Some(24)
  {
  }

  /** A code found in the job-type table names back the lower-cased name, and
      every name the reverse reading names is found with that code. */
  lemma JobTypeRoundTrip(name: string, code: int)
    ensures JobTypeCode(name) == Some(code) ==> JobTypeLabel(code) == Some(ToLower(name))
    ensures JobTypeLabel(code) == Some(name) ==> JobTypeCode(name) == Some(code)
  {
    if JobTypeLabel(code) == Some(name) {
      assert ToLower(name) == name;
    }
  }

  /** The same round trip for the status table. */
  lemma StatusRoundTrip(name: string, code: int)
    ensures StatusCode(name) == Some(code) ==> StatusLabel(code) == Some(ToLower(name))
    ensures StatusLabel(code) == Some(name) ==> StatusCode(name) == Some(code)
  {
    if StatusLabel(code) == Some(name) {
      assert ToLower(name) == name;
    }
  }

  /** Lookups are case-insensitive: a name and its lower-cased form agree. */
  lemma LookupCaseInsensitive(name: string)
    ensures JobTypeCode(ToLower(name)) == JobTypeCode(name)
    ensures StatusCode(ToLower(name)) == StatusCode(name)
  {
    ToLowerIdempotent(name);
  }
}
