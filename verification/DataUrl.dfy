/** Data URLs (section 3 of RFC 2397) as the media job prints and reads them. */
module DataUrl {
  import opened Base64
  import opened Options
  import opened Sequences
  import opened Text

  /** A thumbnail of a message: base64 text as received, or raw bytes. */
  datatype Thumbnail = NoThumbnail | TextThumbnail(text: string) | RawThumbnail(bytes: seq<Byte>)

  datatype Header = Header(mime: Option<string>, isBase64: bool)
  datatype Content = Content(mime: Option<string>, bytes: seq<Byte>)

  /** `s.lower()` on ASCII letters. */
  function Lower(s: string): string {
    seq(|s|, i requires 0 <= i < |s| =>
      if 'A' <= s[i] <= 'Z' then (s[i] as int + 32) as char else s[i])
  }

  /** `f"data:{mime};base64,{text}"`. */
  function DataUrlOf(mime: string, text: string): string {
    "data:" + mime + ";base64" + "," + text
  }

  /** `_extract_thumbnail_data_url`. */
  function ThumbnailUrl(thumbnail: Thumbnail): Option<string> {
    match thumbnail
    case NoThumbnail => None
    case TextThumbnail(text) => if text != "" then Some(DataUrlOf("image/jpeg", text)) else None
    case RawThumbnail(bytes) =>
      if bytes != [] then Some(DataUrlOf("image/jpeg", Encode(bytes, Standard))) else None
  }

  /** The stripped parts of a header that are not blank. */
  function Parts(raw: seq<string>): seq<string> {
    if raw == [] then []
    else (if Strip(raw[0]) != "" then [Strip(raw[0])] else []) + Parts(raw[1..])
  }

  /** The header after one more part: the first part with a slash is the type. */
  function ReadPart(h: Header, part: string): Header {
    if Lower(part) == "base64" then h.(isBase64 := true)
    else if '/' in part && h.mime.None? then h.(mime := Some(Lower(part)))
    else h
  }

  function ReadParts(h: Header, parts: seq<string>): Header
    decreases |parts|
  {
    if parts == [] then h else ReadParts(ReadPart(h, parts[0]), parts[1..])
  }

  function Body(h: Header, payload: string, unquote: string -> seq<Byte>): Option<Content> {
    if !h.isBase64 then Some(Content(h.mime, unquote(payload)))
    else
      match Base64.Decode(payload, Standard, Strict)
      case None => None
      case Some(bytes) => Some(Content(h.mime, bytes))
  }

  function Read(url: string, unquote: string -> seq<Byte>): Option<Content> {
    var comma := IndexOf(url, ',');
    if !("data:" <= url) || comma == |url| then None
    else
      CommaIsAfterScheme(url);
      Body(ReadParts(Header(None, false), Parts(SplitOn(url[5..comma], ';'))), url[comma + 1..], unquote)
  }

  lemma CommaIsAfterScheme(url: string)
    requires "data:" <= url
    ensures IndexOf(url, ',') >= 5
  {
    var scheme := "data:";
    assert forall i :: 0 <= i < |scheme| ==> url[i] == scheme[i] && scheme[i] != ',';
  }

  /** `_decode_data_url`; `unquote` is `unquote_to_bytes`. */
  method DecodeDataUrl(url: string, unquote: string -> seq<Byte>) returns (content: Option<Content>)
    ensures content == Read(url, unquote)
  {
    if !("data:" <= url) {
      return None;
    }
    var comma := IndexOf(url, ',');
    if comma == |url| {
      return None;
    }
    CommaIsAfterScheme(url);
    var parts := Parts(SplitOn(url[5..comma], ';'));
    var mimeType: Option<string>, isBase64 := None, false;
    for i := 0 to |parts|
      invariant ReadParts(Header(mimeType, isBase64), parts[i..]) == ReadParts(Header(None, false), parts)
    {
      assert parts[i..][0] == parts[i] && parts[i..][1..] == parts[i + 1..];
      if Lower(parts[i]) == "base64" {
        isBase64 := true;
        continue;
      }
      if '/' in parts[i] && mimeType.None? {
        mimeType := Some(Lower(parts[i]));
      }
    }
    if !isBase64 {
      return Some(Content(mimeType, unquote(url[comma + 1..])));
    }
    var raw := Base64.Decode(url[comma + 1..], Standard, Strict);
    return if raw.None? then None else Some(Content(mimeType, raw.value));
  }

  // ------------------------------------------------------------ round trip

  lemma {:induction false} StripLeftKeeps(s: string, c: char)
    requires c in s && !IsSpace(c)
    ensures c in StripLeft(s)
  {
    if IsSpace(s[0]) {
      Uncons(s);
      StripLeftKeeps(s[1..], c);
    }
  }

  lemma {:induction false} StripRightKeeps(s: string, c: char)
    requires c in s && !IsSpace(c)
    ensures c in StripRight(s)
  {
    if IsSpace(s[|s| - 1]) {
      Unsnoc(s);
      StripRightKeeps(s[..|s| - 1], c);
    }
  }

  lemma LowerOfLower(s: string)
    requires forall i :: 0 <= i < |s| ==> !('A' <= s[i] <= 'Z')
    ensures Lower(s) == s
  {
  }

  lemma SlashIsNotBase64(part: string)
    requires '/' in part
    ensures Lower(part) != "base64"
  {
    var i :| 0 <= i < |part| && part[i] == '/';
    assert Lower(part)[i] == '/';
    assert '/' in Lower(part);
  }

  lemma PartsOfTwo(a: string, b: string)
    requires Strip(a) != "" && Strip(b) != ""
    ensures Parts([a, b]) == [Strip(a), Strip(b)]
  {
    assert [a, b][1..] == [b];
    assert Parts([b]) == [Strip(b)] by {
      assert [b][1..] == [];
    }
  }

  lemma ReadTwoParts(h: Header, a: string, b: string)
    ensures ReadParts(h, [a, b]) == ReadPart(ReadPart(h, a), b)
  {
    assert [a, b][1..] == [b];
    assert ReadParts(ReadPart(h, a), [b]) == ReadPart(ReadPart(h, a), b) by {
      assert [b][1..] == [];
    }
  }

  lemma SplitHeader(mime: string, last: string)
    requires ';' !in mime && ';' !in last
    ensures SplitOn(mime + ";" + last, ';') == [mime, last]
  {
    SplitAtFirst(mime, ';', last);
    SplitWithout(last, ';');
  }

  lemma MimePart(mime: string)
    requires '/' in mime
    ensures '/' in Strip(mime) && Lower(Strip(mime)) != "base64"
  {
    StripLeftKeeps(mime, '/');
    StripRightKeeps(StripLeft(mime), '/');
    SlashIsNotBase64(Strip(mime));
  }

  lemma Base64Part(last: string)
    requires last == "base64"
    ensures ';' !in last && Strip(last) == last && Lower(last) == last
  {
    StripStripped(last);
    LowerOfLower(last);
  }

  /** The header of a printed URL reads as its type, in base64. */
  lemma PrintedHeader(mime: string, last: string)
    requires '/' in mime && ';' !in mime && last == "base64"
    ensures ReadParts(Header(None, false), Parts(SplitOn(mime + ";" + last, ';')))
         == Header(Some(Lower(Strip(mime))), true)
  {
    Base64Part(last);
    MimePart(mime);
    SplitHeader(mime, last);
    PartsOfTwo(mime, last);
    ReadTwoParts(Header(None, false), Strip(mime), last);
  }

  lemma Sliced(a: string, b: string, c: string)
    requires ',' !in a && ',' !in b
    ensures var url, comma := (a + b) + [','] + c, |a| + |b|;
            a <= url && IndexOf(url, ',') == comma < |url| && url[|a|..comma] == b && url[comma + 1..] == c
  {
    IndexOfFirst(a + b, ',', c);
  }

  /** The three parts of a printed URL. */
  lemma PrintedParts(mime: string, text: string, scheme: string, header: string)
    requires ',' !in mime && scheme == "data:" && header == mime + ";" + "base64"
    ensures var url := DataUrlOf(mime, text);
            && scheme <= url && IndexOf(url, ',') == |scheme| + |header| < |url|
            && url[|scheme|..|scheme| + |header|] == header && url[|scheme| + |header| + 1..] == text
  {
    assert DataUrlOf(mime, text) == (scheme + header) + [','] + text;
    Sliced(scheme, header, text);
  }

  lemma ReadOf(url: string, header: string, text: string, unquote: string -> seq<Byte>)
    requires "data:" <= url && IndexOf(url, ',') == 5 + |header| < |url|
    requires url[5..5 + |header|] == header && url[5 + |header| + 1..] == text
    ensures Read(url, unquote) == Body(ReadParts(Header(None, false), Parts(SplitOn(header, ';'))), text, unquote)
  {
  }

  /** A printed URL reads as the stripped type in lower case and the bytes of its
      text, or not at all when the text is no valid base64. */
  lemma ReadInvertsPrint(mime: string, text: string, unquote: string -> seq<Byte>)
    requires '/' in mime && ';' !in mime && ',' !in mime
    ensures Read(DataUrlOf(mime, text), unquote)
         == match Base64.Decode(text, Standard, Strict)
            case None => None
            case Some(bytes) => Some(Content(Some(Lower(Strip(mime))), bytes))
  {
    var header := mime + ";" + "base64";
    PrintedParts(mime, text, "data:", header);
    ReadOf(DataUrlOf(mime, text), header, text, unquote);
    assert ReadParts(Header(None, false), Parts(SplitOn(header, ';'))) == Header(Some(Lower(Strip(mime))), true) by {
      PrintedHeader(mime, "base64");
    }
  }

  /** Without a comma or the scheme there is no data URL. */
  lemma NoDataUrl(url: string, unquote: string -> seq<Byte>)
    requires !("data:" <= url) || ',' !in url
    ensures Read(url, unquote) == None
  {
    if IndexOf(url, ',') < |url| {
      assert url[IndexOf(url, ',')] == ',';
    }
  }

  lemma TypeOnly(mime: string)
    requires '/' in mime && ';' !in mime
    ensures ReadParts(Header(None, false), Parts(SplitOn(mime, ';'))) == Header(Some(Lower(Strip(mime))), false)
  {
    MimePart(mime);
    SplitWithout(mime, ';');
    assert [mime][1..] == [] && [Strip(mime)][1..] == [];
    assert Parts([mime]) == [Strip(mime)];
  }

  /** A URL that does not ask for base64 holds its percent-decoded text. */
  lemma PlainUrlRead(scheme: string, mime: string, text: string, unquote: string -> seq<Byte>)
    requires scheme == "data:" && '/' in mime && ';' !in mime && ',' !in mime
    ensures Read(scheme + mime + [','] + text, unquote) == Some(Content(Some(Lower(Strip(mime))), unquote(text)))
  {
    Sliced(scheme, mime, text);
    ReadOf(scheme + mime + [','] + text, mime, text, unquote);
    TypeOnly(mime);
  }

  /** There is no URL exactly for a missing and for an empty thumbnail. */
  lemma NoThumbnailUrlIff(thumbnail: Thumbnail)
    ensures ThumbnailUrl(thumbnail) == None <==>
      thumbnail.NoThumbnail? || thumbnail == TextThumbnail("") || thumbnail == RawThumbnail([])
  {
  }

  /** The URL of a thumbnail reads back as a JPEG image: raw bytes always, and
      text exactly when it is valid base64. */
  lemma ThumbnailRoundTrip(thumbnail: Thumbnail, unquote: string -> seq<Byte>)
    requires ThumbnailUrl(thumbnail).Some?
    ensures var content := Read(ThumbnailUrl(thumbnail).value, unquote);
            if thumbnail.RawThumbnail? then content == Some(Content(Some("image/jpeg"), thumbnail.bytes))
            else if Base64.Decode(thumbnail.text, Standard, Strict).None? then content == None
            else content == Some(Content(Some("image/jpeg"), Base64.Decode(thumbnail.text, Standard, Strict).value))
  {
    var mime := "image/jpeg";
    var text := if thumbnail.RawThumbnail? then Encode(thumbnail.bytes, Standard) else thumbnail.text;
    assert mime[5] == '/';
    StripStripped(mime);
    LowerOfLower(mime);
    ReadInvertsPrint(mime, text, unquote);
    if thumbnail.RawThumbnail? {
      DecodeInvertsEncode(thumbnail.bytes, Standard, Strict);
    }
  }
}
