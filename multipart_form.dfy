/**
 * The multipart/form-data body builder of the camera firmware
 * (embedded/src/utils/multipart_form.rs).
 *
 * The builder is an append-only byte buffer. One call of AddFile writes the
 * opening boundary delimiter (section 5.1.1 of RFC 2046), the part header with
 * its Content-Disposition (section 4.2 of RFC 7578) and Content-Type lines,
 * and the raw payload; WrapUp writes the close delimiter, hands the
 * accumulated body to the caller and leaves the buffer empty.
 *
 * A Rust `&str` is a sequence of UTF-8 bytes, so the field name is taken as
 * its bytes; the fixed strings of the builder are ASCII and are converted with
 * Ascii.
 */
module MultipartForm {

  import opened Common

  /**
   * The bytes of a string of the builder's own. Its fixed strings are ASCII,
   * where a character's code is its one UTF-8 byte.
   */
  function Ascii(s: string): (r: seq<byte>)
    ensures |r| == |s|
  {
    seq(|s|, i requires 0 <= i < |s| => (s[i] as int % 256) as byte)
  }

  lemma AsciiConcat(a: string, b: string)
    ensures Ascii(a + b) == Ascii(a) + Ascii(b)
  {
    assert forall i :: 0 <= i < |a + b| ==> Ascii(a + b)[i] == (Ascii(a) + Ascii(b))[i];
  }

  /** The boundary token (multipart_form.rs line 11). */
  const Boundary: string := "----WebKitFormBoundary7MA4YWxkTrZu0gW"

  /** The request's Content-Type header value (multipart_form.rs line 12). */
  const ContentType: string := "multipart/form-data; boundary=----WebKitFormBoundary7MA4YWxkTrZu0gW"

  /** The byte `"` that closes the quoted field name. */
  const Quote: byte := 34

  /** `--boundary CRLF`, the opening delimiter of a part. */
  function OpeningDelimiter(): seq<byte> {
    Ascii("--" + Boundary + "\r\n")
  }

  /** The part header up to the opening quote of the field name. */
  function DispositionPrefix(): seq<byte> {
    Ascii("Content-Disposition: form-data; name=\"")
  }

  /** The part header from the closing quote of the field name to the blank line. */
  function HeaderSuffix(): seq<byte> {
    Ascii("\"; filename=\"teste.jpg\"\r\n" + "Content-Type: image/jpeg\r\n\r\n")
  }

  /** The part header written for one file field. */
  function PartHeader(field: seq<byte>): seq<byte> {
    DispositionPrefix() + field + HeaderSuffix()
  }

  /** `CRLF --boundary`: the delimiter that ends the content of a part. */
  function Delimiter(): seq<byte> {
    Ascii("\r\n--" + Boundary)
  }

  /** `CRLF --boundary-- CRLF`, the close delimiter of the body. */
  function CloseDelimiter(): seq<byte> {
    Ascii("\r\n--" + Boundary + "--\r\n")
  }

  /**
   * The body of one add_file/wrap_up cycle on an empty builder: it opens with
   * the opening delimiter, ends with the close delimiter, and adds a fixed
   * amount of framing to the field name and the payload.
   */
  function EncodeFile(field: seq<byte>, buf: seq<byte>): (r: seq<byte>)
    ensures |r| == |OpeningDelimiter()| + |DispositionPrefix()| + |field| + |HeaderSuffix()| + |buf| + |CloseDelimiter()|
    ensures r[..|OpeningDelimiter()|] == OpeningDelimiter()
    ensures r[|r| - |CloseDelimiter()|..] == CloseDelimiter()
  {
    var head := OpeningDelimiter() + PartHeader(field);
    assert (head + buf + CloseDelimiter())[..|OpeningDelimiter()|] == OpeningDelimiter();
    head + buf + CloseDelimiter()
  }

  /** Where the payload starts in EncodeFile(field, buf). */
  function PayloadOffset(field: seq<byte>): nat {
    |OpeningDelimiter()| + |PartHeader(field)|
  }

  /** The Content-Type header announces the very boundary the delimiters use. */
  lemma ContentTypeNamesBoundary()
    ensures ContentType == "multipart/form-data; boundary=" + Boundary
  {
    var prefix := "multipart/form-data; boundary=";
    assert |ContentType| == |prefix| + |Boundary|;
    assert forall i | 0 <= i < |ContentType| :: ContentType[i] == (prefix + Boundary)[i];
  }

  /** The close delimiter is the part delimiter followed by `--` CRLF. */
  lemma CloseDelimiterStartsWithDelimiter()
    ensures CloseDelimiter() == Delimiter() + Ascii("--\r\n")
  {
    AsciiConcat("\r\n--" + Boundary, "--\r\n");
  }

  /** The payload is written verbatim and contiguously, right after the part header. */
  lemma PayloadVerbatim(field: seq<byte>, buf: seq<byte>)
    ensures |EncodeFile(field, buf)| == |OpeningDelimiter()| + |PartHeader(field)| + |buf| + |CloseDelimiter()|
    ensures EncodeFile(field, buf)[PayloadOffset(field)..PayloadOffset(field) + |buf|] == buf
    ensures EncodeFile(field, buf)[..PayloadOffset(field)] == OpeningDelimiter() + PartHeader(field)
    ensures EncodeFile(field, buf)[PayloadOffset(field) + |buf|..] == CloseDelimiter()
  {
    var head := OpeningDelimiter() + PartHeader(field);
    assert EncodeFile(field, buf) == head + buf + CloseDelimiter();
  }

  // ---------------------------------------------------------------------
  // A reference reader for the single-part layout. It follows RFC 2046:
  // the content of a part ends at the first occurrence of the delimiter
  // CRLF "--" boundary, and the close delimiter must end the body.

  datatype Part = Part(name: seq<byte>, content: seq<byte>)

  predicate StartsWith(s: seq<byte>, p: seq<byte>) {
    |p| <= |s| && s[..|p|] == p
  }

  /** The first index at or after `from` holding byte `b`. */
  function IndexOf(s: seq<byte>, b: byte, from: nat): (r: Option<nat>)
    decreases |s| - from
    ensures r.Some? ==> from <= r.value < |s| && s[r.value] == b
  {
    if from >= |s| then None
    else if s[from] == b then Some(from)
    else IndexOf(s, b, from + 1)
  }

  /** `p` occurs in `s` at index `j`. */
  predicate OccursAt(s: seq<byte>, j: nat, p: seq<byte>) {
    j <= |s| && StartsWith(s[j..], p)
  }

  /** The first index at or after `from` where `delim` starts. */
  function Find(s: seq<byte>, delim: seq<byte>, from: nat): (r: Option<nat>)
    decreases |s| - from
    ensures r.Some? ==> from <= r.value < |s| && OccursAt(s, r.value, delim)
  {
    if from >= |s| then None
    else if OccursAt(s, from, delim) then Some(from)
    else Find(s, delim, from + 1)
  }

  /**
   * Reads a body made of `lead`, a name closed by a quote that opens
   * `suffix`, a content ended by the first `delim`, and `close`.
   */
  function ParseLayout(body: seq<byte>, lead: seq<byte>, suffix: seq<byte>,
                       delim: seq<byte>, close: seq<byte>): Option<Part>
  {
    if !StartsWith(body, lead) then None
    else
      match IndexOf(body, Quote, |lead|)
      case None => None
      case Some(nameEnd) =>
        if !StartsWith(body[nameEnd..], suffix) then None
        else
          var contentStart := nameEnd + |suffix|;
          match Find(body, delim, contentStart)
          case None => None
          case Some(contentEnd) =>
            if body[contentEnd..] == close
            then Some(Part(body[|lead|..nameEnd], body[contentStart..contentEnd]))
            else None
  }

  /** Reads a body holding exactly one file part, in the builder's layout. */
  function ParseSinglePart(body: seq<byte>): Option<Part> {
    ParseLayout(body, OpeningDelimiter() + DispositionPrefix(), HeaderSuffix(), Delimiter(), CloseDelimiter())
  }

  /** No occurrence of `delim` starts inside `buf` when `close` follows it. */
  predicate FreeOf(buf: seq<byte>, delim: seq<byte>, close: seq<byte>) {
    forall j :: 0 <= j < |buf| ==> !OccursAt(buf + close, j, delim)
  }

  /** RFC 2046 demands that the delimiter does not occur inside the content. */
  predicate DelimiterFree(buf: seq<byte>) {
    FreeOf(buf, Delimiter(), CloseDelimiter())
  }

  lemma {:induction false} IndexOfFirst(s: seq<byte>, b: byte, from: nat, k: nat)
    requires from <= k < |s| && s[k] == b
    requires forall j :: from <= j < k ==> s[j] != b
    ensures IndexOf(s, b, from) == Some(k)
    decreases k - from
  {
    if from < k {
      IndexOfFirst(s, b, from + 1, k);
    }
  }

  lemma {:induction false} FindFirst(s: seq<byte>, delim: seq<byte>, from: nat, k: nat)
    requires from <= k < |s| && OccursAt(s, k, delim)
    requires forall j :: from <= j < k ==> !OccursAt(s, j, delim)
    ensures Find(s, delim, from) == Some(k)
    decreases k - from
  {
    if from < k {
      FindFirst(s, delim, from + 1, k);
    }
  }

  lemma LeadComesFirst(body: seq<byte>, lead: seq<byte>, field: seq<byte>, suffix: seq<byte>,
                       buf: seq<byte>, close: seq<byte>)
    requires body == lead + field + suffix + buf + close
    ensures StartsWith(body, lead)
  {
    assert body == lead + (field + suffix + buf + close);
    assert body[..|lead|] == lead;
  }

  /** The name ends at the first quote after it: the one opening the suffix. */
  lemma NameEndsAtQuote(body: seq<byte>, lead: seq<byte>, field: seq<byte>, suffix: seq<byte>,
                        buf: seq<byte>, close: seq<byte>)
    requires body == lead + field + suffix + buf + close
    requires Quote !in field
    requires |suffix| > 0 && suffix[0] == Quote
    ensures IndexOf(body, Quote, |lead|) == Some(|lead| + |field|)
  {
    var rest := suffix + buf + close;
    assert body == lead + (field + rest);
    forall j | |lead| <= j < |lead| + |field|
      ensures body[j] != Quote
    {
      assert body[j] == field[j - |lead|];
    }
    assert body[|lead| + |field|] == rest[0];
    IndexOfFirst(body, Quote, |lead|, |lead| + |field|);
  }

  lemma SuffixFollowsName(body: seq<byte>, lead: seq<byte>, field: seq<byte>, suffix: seq<byte>,
                          buf: seq<byte>, close: seq<byte>)
    requires body == lead + field + suffix + buf + close
    ensures StartsWith(body[|lead| + |field|..], suffix)
    ensures body[|lead| + |field| + |suffix| + |buf|..] == close
  {
    var rest := suffix + (buf + close);
    assert body == (lead + field) + rest;
    DropConcat(lead + field, rest, |lead| + |field|);
    assert rest[..|suffix|] == suffix;
    assert body == (lead + field + suffix + buf) + close;
    DropConcat(lead + field + suffix + buf, close, |lead| + |field| + |suffix| + |buf|);
  }

  lemma DropConcat(a: seq<byte>, b: seq<byte>, j: nat)
    requires |a| <= j <= |a| + |b|
    ensures (a + b)[j..] == b[j - |a|..]
  {
  }

  lemma SliceConcat(s: seq<byte>, a: seq<byte>, b: seq<byte>, c: seq<byte>)
    requires s == a + (b + c)
    ensures s[|a|..|a| + |b|] == b
  {
  }

  /** A content free of the delimiter ends where the close delimiter starts. */
  lemma ContentEndsAtClose(body: seq<byte>, lead: seq<byte>, field: seq<byte>, suffix: seq<byte>,
                           buf: seq<byte>, delim: seq<byte>, close: seq<byte>)
    requires body == lead + field + suffix + buf + close
    requires FreeOf(buf, delim, close)
    requires |close| > 0 && StartsWith(close, delim)
    ensures Find(body, delim, |lead| + |field| + |suffix|) == Some(|lead| + |field| + |suffix| + |buf|)
  {
    var pre := lead + field + suffix;
    assert body == pre + (buf + close);
    FirstDelimiterAfter(body, pre, buf, delim, close);
  }

  lemma FirstDelimiterAfter(s: seq<byte>, pre: seq<byte>, buf: seq<byte>, delim: seq<byte>, close: seq<byte>)
    requires s == pre + (buf + close)
    requires FreeOf(buf, delim, close)
    requires |close| > 0 && StartsWith(close, delim)
    ensures Find(s, delim, |pre|) == Some(|pre| + |buf|)
  {
    var t := buf + close;
    var k := |pre| + |buf|;
    DropConcat(pre, t, k);
    assert s[k..] == close;
    forall j | |pre| <= j < k
      ensures !OccursAt(s, j, delim)
    {
      DropConcat(pre, t, j);
      assert !OccursAt(t, j - |pre|, delim);
    }
    FindFirst(s, delim, |pre|, k);
  }

  /** What ParseLayout returns once each of its checks has passed. */
  lemma ParseLayoutAccepts(body: seq<byte>, lead: seq<byte>, suffix: seq<byte>, delim: seq<byte>,
                           close: seq<byte>, nameEnd: nat, contentEnd: nat)
    requires StartsWith(body, lead)
    requires IndexOf(body, Quote, |lead|) == Some(nameEnd)
    requires StartsWith(body[nameEnd..], suffix)
    requires Find(body, delim, nameEnd + |suffix|) == Some(contentEnd)
    requires body[contentEnd..] == close
    ensures ParseLayout(body, lead, suffix, delim, close)
            == Some(Part(body[|lead|..nameEnd], body[nameEnd + |suffix|..contentEnd]))
  {
  }

  /** In a body laid out as ParseLayout expects, each of its checks passes. */
  lemma LayoutChecksPass(body: seq<byte>, lead: seq<byte>, field: seq<byte>, suffix: seq<byte>,
                         buf: seq<byte>, delim: seq<byte>, close: seq<byte>)
    requires body == lead + field + suffix + buf + close
    requires Quote !in field
    requires |suffix| > 0 && suffix[0] == Quote
    requires FreeOf(buf, delim, close)
    requires |close| > 0 && StartsWith(close, delim)
    ensures StartsWith(body, lead)
    ensures IndexOf(body, Quote, |lead|) == Some(|lead| + |field|)
    ensures StartsWith(body[|lead| + |field|..], suffix)
    ensures Find(body, delim, |lead| + |field| + |suffix|) == Some(|lead| + |field| + |suffix| + |buf|)
    ensures body[|lead| + |field| + |suffix| + |buf|..] == close
  {
    LeadComesFirst(body, lead, field, suffix, buf, close);
    NameEndsAtQuote(body, lead, field, suffix, buf, close);
    SuffixFollowsName(body, lead, field, suffix, buf, close);
    ContentEndsAtClose(body, lead, field, suffix, buf, delim, close);
  }

  /** ParseLayout recovers the name and the content of any body in its layout. */
  lemma ParseLayoutRecovers(body: seq<byte>, lead: seq<byte>, field: seq<byte>, suffix: seq<byte>,
                            buf: seq<byte>, delim: seq<byte>, close: seq<byte>)
    requires body == lead + field + suffix + buf + close
    requires Quote !in field
    requires |suffix| > 0 && suffix[0] == Quote
    requires FreeOf(buf, delim, close)
    requires |close| > 0 && StartsWith(close, delim)
    ensures ParseLayout(body, lead, suffix, delim, close) == Some(Part(field, buf))
  {
    LayoutChecksPass(body, lead, field, suffix, buf, delim, close);
    LayoutSlices(body, lead, field, suffix, buf, close);
    ParseLayoutAccepts(body, lead, suffix, delim, close, |lead| + |field|, |lead| + |field| + |suffix| + |buf|);
  }

  /** The name and the content sit at the offsets the layout gives them. */
  lemma LayoutSlices(body: seq<byte>, lead: seq<byte>, field: seq<byte>, suffix: seq<byte>,
                     buf: seq<byte>, close: seq<byte>)
    requires body == lead + field + suffix + buf + close
    ensures body[|lead|..|lead| + |field|] == field
    ensures body[|lead| + |field| + |suffix|..|lead| + |field| + |suffix| + |buf|] == buf
  {
    SliceConcat(body, lead, field, suffix + buf + close);
    SliceConcat(body, lead + field + suffix, buf, close);
  }

  lemma HeaderSuffixOpensWithQuote()
    ensures |HeaderSuffix()| > 0 && HeaderSuffix()[0] == Quote
  {
    var contentDisposition := "\"; filename=\"teste.jpg\"\r\n";
    assert contentDisposition[0] == '"';
  }

  /**
   * Round trip: a reader that follows RFC 2046 recovers exactly one part,
   * named by the field, whose content is the payload, provided the field name
   * holds no `"` and the payload holds no delimiter.
   */
  lemma RoundTrip(field: seq<byte>, buf: seq<byte>)
    requires Quote !in field
    requires DelimiterFree(buf)
    ensures ParseSinglePart(EncodeFile(field, buf)) == Some(Part(field, buf))
  {
    var lead := OpeningDelimiter() + DispositionPrefix();
    assert EncodeFile(field, buf) == lead + field + HeaderSuffix() + buf + CloseDelimiter();
    HeaderSuffixOpensWithQuote();
    CloseDelimiterStartsWithDelimiter();
    assert CloseDelimiter()[..|Delimiter()|] == Delimiter();
    ParseLayoutRecovers(EncodeFile(field, buf), lead, field, HeaderSuffix(), buf, Delimiter(), CloseDelimiter());
  }

  // ---------------------------------------------------------------------
  // The builder itself.

  class MultiPartForm {
    var form: seq<byte>
    const boundary: string
    const contentType: string

    ghost predicate Valid() {
      boundary == Boundary && contentType == ContentType
    }

    /** `MultiPartForm::new`: an empty body and the fixed boundary. */
    constructor ()
      ensures Valid() && form == []
    {
      form := [];
      boundary := Boundary;
      contentType := ContentType;
    }

    /** Appends the opening delimiter, the part header and the payload. */
    method AddFile(field: seq<byte>, buf: seq<byte>)
      requires Valid()
      modifies this
      ensures form == old(form) + OpeningDelimiter() + PartHeader(field) + buf
    {
      var startContent := Ascii("--" + boundary + "\r\n");
      var formContent := Ascii("Content-Disposition: form-data; name=\"") + field
        + Ascii("\"; filename=\"teste.jpg\"\r\n" + "Content-Type: image/jpeg\r\n\r\n");
      form := form + startContent;
      form := form + formContent;
      form := form + buf;
    }

    /** Appends the close delimiter, returns the whole body and empties the buffer. */
    method WrapUp() returns (body: seq<byte>)
      requires Valid()
      modifies this
      ensures body == old(form) + CloseDelimiter()
      ensures form == []
    {
      var closeForm := Ascii("\r\n--" + boundary + "--\r\n");
      form := form + closeForm;
      body := form;
      form := [];
    }
  }

  /**
   * The firmware keeps one builder for its whole life. Because WrapUp empties
   * the buffer, the second of two cycles yields the body of its own file only.
   */
  method ReusedBuilder(f1: seq<byte>, b1: seq<byte>, f2: seq<byte>, b2: seq<byte>)
    returns (body1: seq<byte>, body2: seq<byte>)
    ensures body1 == EncodeFile(f1, b1)
    ensures body2 == EncodeFile(f2, b2)
    ensures |body2| == |OpeningDelimiter()| + |PartHeader(f2)| + |b2| + |CloseDelimiter()|
  {
    var form := new MultiPartForm();
    form.AddFile(f1, b1);
    assert form.form == OpeningDelimiter() + PartHeader(f1) + b1;
    body1 := form.WrapUp();
    form.AddFile(f2, b2);
    assert form.form == OpeningDelimiter() + PartHeader(f2) + b2;
    body2 := form.WrapUp();
  }
}
