/** The text side of signature images: the data URI a signature is uploaded
    and served as ("data:image/<ext>;base64,<payload>"), the extension and
    payload SignatureService takes out of it, the stored file name, and
    PictureValidator's acceptance rule. */
module Signature {
  import opened Common
  import opened Base64

  const IMAGE_PREFIX: string := "data:image/"
  const BASE64_MARKER: string := ";base64,"

  /** The image types PictureValidator accepts, as in (png|jpeg|jpg|bmp). */
  const IMAGE_TYPES: seq<string> := ["png", "jpeg", "jpg", "bmp"]

  /** The URI prefix for one extension. */
  function UriPrefix(ext: string): string
  {
    IMAGE_PREFIX + ext + BASE64_MARKER
  }

  /** The URI served for a stored signature: the prefix, then the Base64 of
      the file's bytes. */
  function DataUri(ext: string, bytes: seq<byte>): string
  {
    UriPrefix(ext) + Encode(bytes)
  }

  /** substring(startIndex, endIndex) with endIndex = indexOf(";") = -1. */
  datatype ExtensionError = MissingSemicolon

  /** extractFileExtension: with the "data:image/" prefix, the text from just
      after the first '/' (always the prefix's own, at index 10) up to the
      first ';'; without the prefix, "". A prefixed input without ';' makes
      substring throw. */
  function ExtractFileExtension(s: string): (r: Result<string, ExtensionError>)
    ensures !StartsWith(s, IMAGE_PREFIX) ==> r == Ok("")
    ensures StartsWith(s, IMAGE_PREFIX) ==> (r.Err? <==> ';' !in s)
    ensures StartsWith(s, IMAGE_PREFIX) && r.Ok? ==>
              ';' !in r.value && StartsWith(s, IMAGE_PREFIX + r.value + ";")
  {
    if !StartsWith(s, IMAGE_PREFIX) then Ok("")
    else
      var end := IndexOf(s, ';');
      if end == -1 then Err(MissingSemicolon)
      else
        assert s[..|IMAGE_PREFIX|] == IMAGE_PREFIX;
        assert ';' !in IMAGE_PREFIX;
        assert forall k :: 0 <= k < |IMAGE_PREFIX| ==> s[k] == s[..|IMAGE_PREFIX|][k];
        var ext := s[|IMAGE_PREFIX|..end];
        assert s[..end] == IMAGE_PREFIX + ext;
        assert s[..end + 1] == IMAGE_PREFIX + ext + ";";
        assert ext == s[..end][|IMAGE_PREFIX|..];
        Ok(ext)
  }

  /** The payload saveSignature decodes: everything after the first ',', or
      the whole input when there is none (indexOf gives -1). */
  function Payload(s: string): (p: string)
    ensures ',' !in s ==> p == s
    ensures ',' in s ==> exists k :: 0 <= k < |s| && s[k] == ',' && ',' !in s[..k] && p == s[k + 1..]
  {
    var k := IndexOf(s, ',');
    s[k + 1..]
  }

  /** The stored file name: the random UUID, '_', the original name, '.',
      the extension. */
  function StoredFileName(uuid: string, originalFilename: string, ext: string): string
  {
    uuid + "_" + originalFilename + "." + ext
  }

  /** The name splits back into its parts: the UUID text (hex digits and
      dashes) ends at the first '_', and an extension without '.' starts
      after the last '.'. */
  lemma StoredFileNameParts(uuid: string, originalFilename: string, ext: string)
    requires '_' !in uuid && '.' !in ext
    ensures var name := StoredFileName(uuid, originalFilename, ext);
            IndexOf(name, '_') == |uuid|
            && name[..|uuid|] == uuid
            && name[|name| - |ext|..] == ext
            && name[|name| - |ext| - 1] == '.'
            && '.' !in name[|name| - |ext|..]
  {
    var name := StoredFileName(uuid, originalFilename, ext);
    assert name == uuid + ("_" + originalFilename + "." + ext);
    assert name[..|uuid|] == uuid;
    assert name[|uuid|] == '_';
    IndexOfAt(name, '_', |uuid|);
  }

  /** IndexOf finds the first occurrence. */
  lemma IndexOfAt(s: string, c: char, k: int)
    requires 0 <= k < |s| && s[k] == c && c !in s[..k]
    ensures IndexOf(s, c) == k
  {
  }

  /** Reading the extension of a URI built from it gives it back; only a ';'
      in the extension would end it early. */
  lemma ExtensionRoundTrip(ext: string, payload: string)
    requires ';' !in ext
    ensures ExtractFileExtension(UriPrefix(ext) + payload) == Ok(ext)
  {
    var s := UriPrefix(ext) + payload;
    assert s == IMAGE_PREFIX + ext + ";" + ("base64," + payload);
    assert s[..|IMAGE_PREFIX|] == IMAGE_PREFIX;
    var k := |IMAGE_PREFIX| + |ext|;
    assert s[k] == ';';
    assert s[..k] == IMAGE_PREFIX + ext;
    IndexOfAt(s, ';', k);
  }

  /** Taking the payload of a URI built from it gives it back, commas in
      the payload included, as long as the extension has no ','. */
  lemma PayloadRoundTrip(ext: string, payload: string)
    requires ',' !in ext
    ensures Payload(UriPrefix(ext) + payload) == payload
  {
    var s := UriPrefix(ext) + payload;
    var k := |UriPrefix(ext)| - 1;
    assert s[k] == ',';
    assert s[..k] == IMAGE_PREFIX + ext + ";base64";
    IndexOfAt(s, ',', k);
    assert s[k + 1..] == payload;
  }

  /** What saveSignature stores for an upload. */
  datatype StoredSignature = StoredSignature(fileName: string, fileExtension: string, bytes: seq<byte>)

  datatype SaveError = BadExtension(ExtensionError) | NotBase64

  /** The pure part of saveSignature: extension, payload, decode (which
      throws on text the decoder rejects) and stored file name. */
  function PrepareSignature(uuid: string, base64Data: string, originalFilename: string): (r: Result<StoredSignature, SaveError>)
    ensures r.Ok? ==> r.value.fileName == StoredFileName(uuid, originalFilename, r.value.fileExtension)
    ensures r.Ok? <==> ExtractFileExtension(base64Data).Ok? && Decode(Payload(base64Data)).Some?
    ensures r.Ok? ==> Decode(Payload(base64Data)) == Some(r.value.bytes)
  {
    match ExtractFileExtension(base64Data)
    case Err(e) => Err(BadExtension(e))
    case Ok(ext) =>
      match Decode(Payload(base64Data))
      case None => Err(NotBase64)
      case Some(bytes) => Ok(StoredSignature(StoredFileName(uuid, originalFilename, ext), ext, bytes))
  }

  /** The URI getSignaturesByUserId and getSignatureByNameAndUserId serve for
      a stored signature. */
  function ServedUri(stored: StoredSignature): string
  {
    DataUri(stored.fileExtension, stored.bytes)
  }

  /** Uploading the URI of an image and serving it back gives the same URI:
      the extension, the file name and the bytes survive the round trip. */
  lemma SaveThenServe(uuid: string, ext: string, bytes: seq<byte>, originalFilename: string)
    requires ';' !in ext && ',' !in ext
    ensures var r := PrepareSignature(uuid, DataUri(ext, bytes), originalFilename);
            r == Ok(StoredSignature(StoredFileName(uuid, originalFilename, ext), ext, bytes))
            && ServedUri(r.value) == DataUri(ext, bytes)
  {
    ExtensionRoundTrip(ext, Encode(bytes));
    PayloadRoundTrip(ext, Encode(bytes));
    DecodeEncode(bytes);
  }

  /* ---------- getSignatureByNameAndUserId ---------- */

  /** Why getSignatureByNameAndUserId fails: the user has no signature of
      that name (ResourceNotFoundException), or its file cannot be read
      (FileException). */
  datatype LookupError = SignatureNotFound(message: string) | SignatureUnreadable(message: string)

  const UNREADABLE_MESSAGE: string := "Falha ao carregar assinatura"

  function NotFoundMessage(name: string): string
  {
    "Assinatura de nome " + name + " não encontrada"
  }

  /** getSignatureByNameAndUserId for one name: row is the signature stored
      under it for the user, if any, its bytes those of its file, and
      readable says whether the file could be read. A found, readable
      signature is served as its data URI. */
  function LookupSignature(name: string, row: Option<StoredSignature>, readable: bool): (r: Result<string, LookupError>)
    ensures r.Ok? <==> row.Some? && readable
    ensures row.None? ==> r == Err(SignatureNotFound(NotFoundMessage(name)))
    ensures row.Some? && !readable ==> r == Err(SignatureUnreadable(UNREADABLE_MESSAGE))
  {
    match row
    case None => Err(SignatureNotFound(NotFoundMessage(name)))
    case Some(stored) => if readable then Ok(ServedUri(stored)) else Err(SignatureUnreadable(UNREADABLE_MESSAGE))
  }

  /** A signature saved from a data URI and then looked up by its name is
      served as the same URI. */
  lemma SaveThenLookUp(uuid: string, ext: string, bytes: seq<byte>, name: string)
    requires ';' !in ext && ',' !in ext
    ensures var saved := PrepareSignature(uuid, DataUri(ext, bytes), name);
            saved.Ok? && LookupSignature(name, Some(saved.value), true) == Ok(DataUri(ext, bytes))
  {
    SaveThenServe(uuid, ext, bytes, name);
  }

  /* ---------- PictureValidator ---------- */

  /** The value is the prefix of type t followed by a payload of the pattern. */
  predicate MatchesWithType(v: string, t: string)
  {
    StartsWith(v, UriPrefix(t)) && PayloadPattern(v[|UriPrefix(t)|..])
  }

  /** ^data:image/(png|jpeg|jpg|bmp);base64,[A-Za-z0-9+/]+={0,2}$ against the
      whole value. */
  predicate MatchesPicturePattern(v: string)
  {
    exists t | t in IMAGE_TYPES :: MatchesWithType(v, t)
  }

  /** The first of the types the value matches with. */
  function MatchingType(v: string, types: seq<string>): (r: Option<string>)
    ensures r.Some? <==> exists t | t in types :: MatchesWithType(v, t)
    ensures r.Some? ==> r.value in types && MatchesWithType(v, r.value)
  {
    if types == [] then None
    else if MatchesWithType(v, types[0]) then Some(types[0])
    else
      var r := MatchingType(v, types[1..]);
      assert forall t :: t in types <==> t == types[0] || t in types[1..];
      r
  }

  /** A payload of the pattern has no ','. */
  lemma PatternHasNoComma(p: string)
    requires PayloadPattern(p)
    ensures ',' !in p
  {
    var n := AlphabetPrefixLength(p);
    assert forall k :: 0 <= k < n ==> p[..n][k] == p[k];
  }

  /** split(",") of a matching value is the prefix without its ',' and the
      payload, so index 1 exists and is the whole payload. */
  lemma SplitOfMatch(t: string, p: string)
    requires t in IMAGE_TYPES && PayloadPattern(p)
    ensures JavaSplit(UriPrefix(t) + p, ',') == [IMAGE_PREFIX + t + ";base64", p]
  {
    var head := IMAGE_PREFIX + t + ";base64";
    var s := UriPrefix(t) + p;
    assert s == head + [','] + p;
    assert ',' !in head;
    PatternHasNoComma(p);
    SplitAfterPrefix(head, ',', p);
    SplitWithoutSeparator(p, ',');
    assert s[|head|] == ',';
  }

  /** The matched value is the prefix of one type followed by the payload. */
  function MatchedPayload(v: string): (r: (string, string))
    requires MatchesPicturePattern(v)
    ensures r.0 in IMAGE_TYPES && PayloadPattern(r.1) && v == UriPrefix(r.0) + r.1
  {
    var t := MatchingType(v, IMAGE_TYPES).value;
    var p := v[|UriPrefix(t)|..];
    assert v == v[..|UriPrefix(t)|] + p;
    (t, p)
  }

  /** isValid: null and "" are rejected, then the pattern, then the payload
      (split(",")[1]) must decode. */
  function IsValidPicture(value: Option<string>): bool
  {
    match value
    case None => false
    case Some(v) =>
      if v == "" then false
      else if !MatchesPicturePattern(v) then false
      else
        var parts := JavaSplit(v, ',');
        var m := MatchedPayload(v);
        SplitOfMatch(m.0, m.1);
        Decode(parts[1]).Some?
  }

  /** The extension of a URI ends at its first ';', so two URIs with
      extensions free of ';' are equal only when extensions and payloads
      are: a value matches for one type only. */
  lemma PrefixDeterminesType(t: string, u: string, p: string, q: string)
    requires ';' !in t && ';' !in u
    requires UriPrefix(t) + p == UriPrefix(u) + q
    ensures t == u && p == q
  {
    var a, b := t + BASE64_MARKER + p, u + BASE64_MARKER + q;
    assert UriPrefix(t) + p == IMAGE_PREFIX + a;
    assert UriPrefix(u) + q == IMAGE_PREFIX + b;
    assert a == (IMAGE_PREFIX + a)[|IMAGE_PREFIX|..];
    assert b == (IMAGE_PREFIX + b)[|IMAGE_PREFIX|..];
    assert forall k :: 0 <= k < |t| ==> a[k] == t[k] && a[k] != ';';
    assert forall k :: 0 <= k < |u| ==> b[k] == u[k] && b[k] != ';';
    assert a[|t|] == ';' && b[|u|] == ';';
    assert |t| == |u|;
    assert t == a[..|t|] && u == b[..|u|];
    assert p == a[|t| + |BASE64_MARKER|..] && q == b[|u| + |BASE64_MARKER|..];
  }

  /** No accepted type holds a ';' or a ','. */
  lemma TypesHaveNoSeparators(t: string)
    requires t in IMAGE_TYPES
    ensures ';' !in t && ',' !in t
  {
  }

  /** A matching value is valid exactly when its payload decodes. */
  lemma ValidOfMatch(v: string)
    requires MatchesPicturePattern(v)
    ensures v != "" && (IsValidPicture(Some(v)) <==> Decode(MatchedPayload(v).1).Some?)
  {
    var m := MatchedPayload(v);
    SplitOfMatch(m.0, m.1);
  }

  /** The value of type t and payload p matches for t and payload p only. */
  lemma MatchedParts(t: string, p: string)
    requires t in IMAGE_TYPES
    ensures var v := UriPrefix(t) + p;
            MatchesPicturePattern(v) <==> PayloadPattern(p)
    ensures var v := UriPrefix(t) + p;
            MatchesPicturePattern(v) ==> MatchedPayload(v) == (t, p)
  {
    var v := UriPrefix(t) + p;
    assert v[..|UriPrefix(t)|] == UriPrefix(t) && v[|UriPrefix(t)|..] == p;
    TypesHaveNoSeparators(t);
    if PayloadPattern(p) {
      assert MatchesWithType(v, t);
    }
    if MatchesPicturePattern(v) {
      var m := MatchedPayload(v);
      TypesHaveNoSeparators(m.0);
      PrefixDeterminesType(m.0, t, m.1, p);
    }
  }

  /** A value is valid exactly when it is the prefix of an accepted type
      followed by a payload of the pattern whose padding fits its last
      group. */
  lemma IsValidPictureMeans(t: string, p: string)
    requires t in IMAGE_TYPES
    ensures var n, pad := AlphabetPrefixLength(p), PaddingLength(p);
            IsValidPicture(Some(UriPrefix(t) + p)) <==>
              PayloadPattern(p)
              && ((pad == 0 && n % 4 != 1) || (pad == 1 && n % 4 == 3) || (pad == 2 && n % 4 == 2))
  {
    var v := UriPrefix(t) + p;
    MatchedParts(t, p);
    if PayloadPattern(p) {
      ValidOfMatch(v);
      PatternDecodes(p);
    }
  }

  /** Null and empty values are rejected; so is every value that does not
      start with an accepted prefix. */
  lemma IsValidPictureRejects(v: string)
    requires forall t :: t in IMAGE_TYPES ==> !StartsWith(v, UriPrefix(t))
    ensures !IsValidPicture(None) && !IsValidPicture(Some("")) && !IsValidPicture(Some(v))
  {
  }

  /** The URI served for a non-empty image of an accepted type passes the
      validator, so a served signature can be uploaded again. */
  lemma ServedUriIsValid(t: string, bytes: seq<byte>)
    requires t in IMAGE_TYPES && |bytes| > 0
    ensures IsValidPicture(Some(DataUri(t, bytes)))
  {
    var p := Encode(bytes);
    EncodeShape(bytes);
    DecodeEncode(bytes);
    PatternDecodes(p);
    IsValidPictureMeans(t, p);
  }
}
