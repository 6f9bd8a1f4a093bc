/**
 * The monitor's image cache: gate symbols and matrices loaded from GIF files
 * once and kept by gate name, in two separate dictionaries.
 */
module ImageCache {
  import opened Wrappers

  /** What opening an image file gives: the image, FileNotFoundError, or any other error of the image library. */
  datatype Load<Image> = Loaded(image: Image) | FileNotFound | OtherError

  /** An error the cache does not catch. */
  datatype LoadError = Uncaught

  function SymbolFile(name: string): string {
    "images/" + name + "-symbol.gif"
  }

  function MatrixFile(name: string): string {
    "images/" + name + "-matrix.gif"
  }

  /**
   * One lookup in a cache: a hit returns the stored image; a miss loads the file,
   * stores what it loaded and returns it; a missing file returns `None` and stores
   * nothing; any other failure propagates.
   */
  function Fetch<Image>(cache: map<string, Image>, name: string, load: Load<Image>): (Result<Option<Image>, LoadError>, map<string, Image>)
  {
    if name in cache then (Ok(Some(cache[name])), cache)
    else
      match load
      case Loaded(image) => (Ok(Some(image)), cache[name := image])
      case FileNotFound => (Ok(None), cache)
      case OtherError => (Err(Uncaught), cache)
  }

  /** A cached name is answered from the cache, whatever the file system holds. */
  lemma HitIgnoresFiles<Image>(cache: map<string, Image>, name: string, load: Load<Image>, load': Load<Image>)
    requires name in cache
    ensures Fetch(cache, name, load) == Fetch(cache, name, load') == (Ok(Some(cache[name])), cache)
  {
  }

  /** Loading only adds the name asked for; a failed load leaves the cache as it was. */
  lemma FetchOnlyAdds<Image>(cache: map<string, Image>, name: string, load: Load<Image>)
    ensures var (r, after) := Fetch(cache, name, load);
      && cache.Keys <= after.Keys <= cache.Keys + {name}
      && (forall n :: n in cache ==> after[n] == cache[n])
      && (r.Ok? && r.value.Some? <==> name in after)
      && (r.Ok? && r.value.Some? ==> r.value.value == after[name])
      && (name !in after ==> after == cache)
  {
  }

  /**
   * Once an image is returned it stays: the next lookup of the same name
   * returns the same image and changes nothing, whatever it would have loaded.
   */
  lemma {:induction false} FetchTwice<Image>(cache: map<string, Image>, name: string, first: Load<Image>, second: Load<Image>)
    requires Fetch(cache, name, first).0.Ok? && Fetch(cache, name, first).0.value.Some?
    ensures var (r1, c1) := Fetch(cache, name, first);
      Fetch(c1, name, second) == (r1, c1)
  {
    FetchOnlyAdds(cache, name, first);
  }

  /** A missing file is not remembered: a later lookup loads the file again. */
  lemma MissRetries<Image>(cache: map<string, Image>, name: string, later: Image)
    requires name !in cache
    ensures var (_, c1) := Fetch(cache, name, FileNotFound);
      Fetch(c1, name, Loaded(later)) == (Ok(Some(later)), cache[name := later])
  {
  }

  class ImageCache<Image> {
    var symbols: map<string, Image>
    var matrices: map<string, Image>

    constructor ()
      ensures symbols == map[] && matrices == map[]
    {
      symbols, matrices := map[], map[];
    }

    /** `getSymbolImage(name)`, with `files` the outcome of opening each path now. */
    method GetSymbolImage(name: string, files: string -> Load<Image>) returns (r: Result<Option<Image>, LoadError>)
      modifies this
      ensures (r, symbols) == Fetch(old(symbols), name, files(SymbolFile(name)))
      ensures matrices == old(matrices)
    {
      if name in symbols {
        return Ok(Some(symbols[name]));
      }
      var load := files(SymbolFile(name));
      match load
      case Loaded(image) =>
        symbols := symbols[name := image];
        return Ok(Some(image));
      case FileNotFound =>
        return Ok(None);
      case OtherError =>
        return Err(Uncaught);
    }

    /** `getMatrixImage(name)`, with `files` the outcome of opening each path now. */
    method GetMatrixImage(name: string, files: string -> Load<Image>) returns (r: Result<Option<Image>, LoadError>)
      modifies this
      ensures (r, matrices) == Fetch(old(matrices), name, files(MatrixFile(name)))
      ensures symbols == old(symbols)
    {
      if name in matrices {
        return Ok(Some(matrices[name]));
      }
      var load := files(MatrixFile(name));
      match load
      case Loaded(image) =>
        matrices := matrices[name := image];
        return Ok(Some(image));
      case FileNotFound =>
        return Ok(None);
      case OtherError =>
        return Err(Uncaught);
    }
  }
}
