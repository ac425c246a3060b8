/** The checks each acquisition path makes before it touches the sandbox,
    and the abstract result of a `fetch`. */
module Guards {
  import opened Bridge
  import opened Text

  /** The first file of the file picker: its name and its full text. */
  datatype LocalFile = LocalFile(name: string, text: string)

  /** What `fetch` produced: a response (whose body is read with
      `res.text()`), or a rejection whose error renders as `reason`
      (`e?.message || e`). */
  datatype FetchResult =
    | Response(status: nat, statusText: string, body: string)
    | NetworkFailure(reason: string)

  /** `res.ok`: the status is in the range 200 to 299. */
  predicate IsOk(f: FetchResult) {
    f.Response? && 200 <= f.status <= 299
  }

  /** The outcome of a guard: go on with a value, or stop after writing
      one log entry. */
  datatype Verdict<T> = Accept(value: T) | Reject(entry: LogEntry)

  const NoFileMessage: string := "ファイルが選択されていません"
  const NotJsMessage: string := ".js ファイルを選んでください"
  const EmptyUrlMessage: string := "URLを入力してください"
  const MixedContentMessage: string := "Mixed Content: httpsページでhttpは不可です"

  /** The guards of `runLocal`: a file must be selected and its name must
      end in `.js`; both rejections are warnings. */
  function CheckLocalFile(file: Option<LocalFile>): (v: Verdict<LocalFile>)
    ensures v.Accept? <==> file.Some? && exists stem :: file.value.name == stem + ".js"
    ensures v.Accept? ==> v.value == file.value
    ensures v.Reject? ==> v.entry.level == Warn
    ensures file.None? ==> v == Reject(LogEntry(NoFileMessage, Warn))
  {
    match file
    case None => Reject(LogEntry(NoFileMessage, Warn))
    case Some(f) =>
      EndsWithIff(f.name, ".js");
      if !EndsWith(f.name, ".js") then Reject(LogEntry(NotJsMessage, Warn))
      else Accept(f)
  }

  /** The guards of `runFromURL`, on the trimmed input: it must not be
      empty (a warning), and on a page served over `https:` it must not
      start with `http:` (an error). */
  function CheckUrl(pageProtocol: string, raw: string): (v: Verdict<string>)
    ensures v.Accept? ==> v.value == Trim(raw) && v.value != ""
    ensures (v.Reject? && v.entry.level == Warn) <==> AllSpace(raw)
    ensures (v.Reject? && v.entry.level == Error) <==>
      !AllSpace(raw) && pageProtocol == "https:" && exists rest :: Trim(raw) == "http:" + rest
    ensures v.Reject? ==> v.entry.level != Info
  {
    var url := Trim(raw);
    StartsWithIff(url, "http:");
    if url == "" then Reject(LogEntry(EmptyUrlMessage, Warn))
    else if pageProtocol == "https:" && StartsWith(url, "http:") then
      Reject(LogEntry(MixedContentMessage, Error))
    else Accept(url)
  }

  /** An `https:` address never trips the mixed-content check. */
  lemma SecureUrlAccepted(pageProtocol: string, raw: string)
    requires StartsWith(Trim(raw), "https:")
    ensures CheckUrl(pageProtocol, raw) == Accept(Trim(raw))
  {
    var url := Trim(raw);
    assert url[4] == 's' by { assert url[..6][4] == url[4]; }
    assert !StartsWith(url, "http:");
  }

  /** The check is case-sensitive: an upper-case `HTTP:` scheme passes it. */
  lemma UpperCaseSchemeAccepted()
    ensures CheckUrl("https:", "HTTP://example.com/g.js").Accept?
  {
    var url := "HTTP://example.com/g.js";
    assert url[0] == 'H';
    assert !AllSpace(url);
    assert Trim(url)[0] == 'H' by {
      var t := Trim(url);
      var i: nat, j: nat :| TrimmedAt(url, i, j) && t == url[i..j];
      assert i == 0;
    }
    assert !StartsWith(Trim(url), "http:");
  }
}
