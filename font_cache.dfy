/** FontCache: one process-wide map from font path to loaded font. getFont
    loads a font only the first time its path is asked for and afterwards
    returns the cached font, whichever document asks. */
module FontCache {
  import opened Common

  /** A loaded font: the document it was loaded into and the path it came
      from. PDFBox binds a loaded TrueType font to one document. */
  datatype Font = Font(loadedFor: nat, path: string)

  /** The IOException of a font resource that cannot be read. */
  datatype FontError = Unreadable(path: string)

  /** The result of getFont and the cache it leaves, as a function of the
      cache before; `readable` says whether the class-path resource opens. */
  datatype Lookup = Lookup(result: Result<Font, FontError>, cache: map<string, Font>, loaded: bool)

  function GetOrLoad(cache: map<string, Font>, document: nat, fontPath: string, readable: string -> bool): (l: Lookup)
    ensures l.result.Ok? ==> fontPath in l.cache && l.cache[fontPath] == l.result.value
    ensures l.loaded <==> fontPath !in cache && readable(fontPath)
    ensures l.result.Err? <==> fontPath !in cache && !readable(fontPath)
  {
    if fontPath in cache then Lookup(Ok(cache[fontPath]), cache, false)
    else if readable(fontPath) then
      var font := Font(document, fontPath);
      Lookup(Ok(font), cache[fontPath := font], true)
    else Lookup(Err(Unreadable(fontPath)), cache, false)
  }

  /** The cache only grows: no entry is removed or replaced, and at most
      the asked-for key is added. */
  lemma CacheOnlyGrows(cache: map<string, Font>, document: nat, fontPath: string, readable: string -> bool)
    ensures var l := GetOrLoad(cache, document, fontPath, readable);
            (forall k :: k in cache ==> k in l.cache && l.cache[k] == cache[k])
            && (forall k :: k in l.cache ==> k in cache || k == fontPath)
  {
  }

  /** After a successful call the path is cached, and asking again, for any
      document, returns the same font without loading. */
  lemma SecondCallHitsCache(cache: map<string, Font>, d1: nat, d2: nat, fontPath: string, readable: string -> bool)
    requires GetOrLoad(cache, d1, fontPath, readable).result.Ok?
    ensures var first := GetOrLoad(cache, d1, fontPath, readable);
            var second := GetOrLoad(first.cache, d2, fontPath, readable);
            second == Lookup(first.result, first.cache, false)
  {
  }

  /** The key ignores the document: a font first loaded for one document is
      what every later document gets. */
  lemma FontBelongsToFirstDocument(cache: map<string, Font>, d1: nat, d2: nat, fontPath: string, readable: string -> bool)
    requires fontPath !in cache && readable(fontPath)
    ensures var first := GetOrLoad(cache, d1, fontPath, readable);
            GetOrLoad(first.cache, d2, fontPath, readable).result == Ok(Font(d1, fontPath))
  {
  }

  /** The static map behind getFont. */
  class FontCache {
    var cache: map<string, Font>
    var loads: nat

    constructor ()
      ensures cache == map[] && loads == 0
    {
      cache := map[];
      loads := 0;
    }

    /** getFont: load into the document and remember the font if the path
        is new, then return what the map holds for the path. */
    method GetFont(document: nat, fontPath: string, readable: string -> bool) returns (r: Result<Font, FontError>)
      modifies this
      ensures var l := GetOrLoad(old(cache), document, fontPath, readable);
              r == l.result && cache == l.cache
              && loads == old(loads) + (if l.loaded then 1 else 0)
    {
      if fontPath !in cache {
        if !readable(fontPath) {
          return Err(Unreadable(fontPath));
        }
        var font := Font(document, fontPath);
        cache := cache[fontPath := font];
        loads := loads + 1;
      }
      r := Ok(cache[fontPath]);
    }
  }
}
