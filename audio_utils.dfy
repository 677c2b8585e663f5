/**
 * The part of `blobToBase64` (utils/audioUtils.ts) that is logic rather than
 * browser plumbing: how the FileReader's completion settles the promise, and
 * how the base64 payload is cut out of the data URL it produced.
 */
module AudioUtils {
  import opened Wrappers
  import opened Text

  /** What `reader.result` holds at `loadend`: a string for `readAsDataURL`, else an ArrayBuffer or null. */
  datatype ReadResult = StringResult(dataUrl: string) | OtherResult

  /**
   * How the reader finishes: `onloadend` with a result, or `onerror`, whose
   * argument is the reader's progress event, an object without a `message`.
   */
  datatype ReaderEvent = LoadEnd(result: ReadResult) | ReadError

  /**
   * How the returned promise settles: resolved with `split(',')[1]` (possibly
   * `undefined`), or rejected with a reason whose `message` is given ("" when
   * the reason has none).
   */
  datatype Settled = Resolved(payload: Option<string>) | Rejected(message: string)

  const NotAStringMessage := "Failed to read blob as string"

  /**
   * `dataUrl.split(',')[1]`: the text between the first comma and the next
   * comma or the end; `undefined` (None) when the string has no comma.
   */
  function Payload(dataUrl: string): (p: Option<string>)
    ensures p.Some? <==> ',' in dataUrl
    ensures p.Some? ==> ',' !in p.value && |p.value| < |dataUrl|
    ensures p.Some? ==>
      var head := Split(dataUrl, ',')[0];
      var n := |head| + 1 + |p.value|;
      ',' !in head && n <= |dataUrl| && dataUrl[..n] == head + "," + p.value &&
      (n == |dataUrl| || dataUrl[n] == ',')
  {
    var fields := Split(dataUrl, ',');
    JoinSplit(dataUrl, ',');
    if |fields| > 1 then
      JoinLayout(fields, ',');
      Some(fields[1])
    else None
  }

  /** The join of two or more fields: the first field, the separator, the second field, then the end or a separator. */
  lemma JoinLayout(fields: seq<string>, sep: char)
    requires |fields| >= 2
    ensures var j := Join(fields, sep);
      var n := |fields[0]| + 1 + |fields[1]|;
      n <= |j| && j[..n] == fields[0] + [sep] + fields[1] && (n == |j| || j[n] == sep)
  {
    var rest := Join(fields[1..], sep);
    assert Join(fields, sep) == fields[0] + [sep] + rest;
    if |fields| > 2 {
      assert rest == fields[1] + [sep] + Join(fields[2..], sep);
    }
  }

  /**
   * Every string with a comma has this shape: a comma-free header, a comma, a
   * comma-free field, then nothing or more comma-led text. Its payload is that
   * field.
   */
  lemma PayloadOfFields(header: string, data: string, tail: string)
    requires ',' !in header && ',' !in data
    requires tail == "" || tail[0] == ','
    ensures Payload(header + "," + data + tail) == Some(data)
  {
    SecondField(header, data, tail);
  }

  lemma SecondField(header: string, data: string, tail: string)
    requires ',' !in header && ',' !in data
    requires tail == "" || tail[0] == ','
    ensures var fields := Split(header + "," + data + tail, ',');
      |fields| > 1 && fields[1] == data
  {
    assert header + "," + data + tail == header + [','] + (data + tail);
    SplitAfterField(header, ',', data + tail);
    FirstField(data, tail);
  }

  lemma FirstField(data: string, tail: string)
    requires ',' !in data
    requires tail == "" || tail[0] == ','
    ensures Split(data + tail, ',')[0] == data
  {
    if tail == "" {
      assert data + tail == data;
      SplitWithoutSeparator(data, ',');
    } else {
      assert data + tail == data + [','] + tail[1..];
      SplitAfterField(data, ',', tail[1..]);
    }
  }

  /** For a data URL `header,payload` with one comma, the result is exactly the text after the comma. */
  lemma {:induction false} PayloadOfDataUrl(header: string, data: string)
    requires ',' !in header && ',' !in data
    ensures Payload(header + "," + data) == Some(data)
  {
    SplitAfterField(header, ',', data);
    SplitWithoutSeparator(data, ',');
  }

  /**
   * `blobToBase64`'s settlement: a string result resolves to its payload, a
   * non-string result rejects with the fixed message, a reader error rejects
   * with the error event itself, which has no message.
   */
  function BlobToBase64(e: ReaderEvent): (r: Settled)
    ensures r.Resolved? <==> e.LoadEnd? && e.result.StringResult?
    ensures r.Resolved? ==> r.payload == Payload(e.result.dataUrl)
    ensures e.ReadError? ==> r == Rejected("")
    ensures e.LoadEnd? && e.result.OtherResult? ==> r == Rejected(NotAStringMessage)
  {
    match e
    case LoadEnd(StringResult(s)) => Resolved(Payload(s))
    case LoadEnd(OtherResult) => Rejected(NotAStringMessage)
    case ReadError => Rejected("")
  }

  /** Reading a recorded blob as `data:<mime>;base64,<payload>` yields exactly the payload. */
  lemma EncodedBlobResolvesToPayload(mime: string, data: string)
    requires ',' !in mime && ',' !in data
    ensures BlobToBase64(LoadEnd(StringResult("data:" + mime + ";base64," + data))) == Resolved(Some(data))
  {
    assert "data:" + mime + ";base64," + data == ("data:" + mime + ";base64") + "," + data;
    PayloadOfDataUrl("data:" + mime + ";base64", data);
  }
}
