/** Values shared by the load requests and the loader: URLs, images, errors,
    the notifications a request posts, the platform services the code calls
    but does not implement, the shared image cache and the notification log. */
module ImageTypes {

  datatype Option<+T> = None | Some(value: T)

  type Byte = bv8
  type Bytes = seq<Byte>

  /** A URL as the loader sees it: its absolute string, and the path of its
      absolute form (`absoluteURL?.path`), absent for a URL that has none. */
  datatype Url = Url(absoluteString: string, path: Option<string>)

  /** A decoded image. Its pixels are not modelled, only its identity. */
  datatype Image = Image(handle: nat)

  /** The object a request is made for (`AnyObject?`), as an identity. */
  type Target = Option<int>

  /** The selector to call back (`Selector?`), compared by value. */
  type Action = Option<string>

  /** An `NSError`: domain, code and localized description. */
  datatype LoadError = LoadError(domain: string, code: int, description: string)

  /** The error a request reports when the fetched bytes are not an image. */
  const InvalidImageData: LoadError := LoadError("AsyncImageLoader", 0, "Invalid image data")

  /** What a request posts. `LoadDidFinish` carries the image, the request's URL
      (the key is absent when the URL is nil) and whether a cache is attached;
      `LoadDidFail` carries the URL and the error. Both name the target. */
  datatype Notification =
    | LoadDidFinish(target: Target, image: Image, finishedUrl: Option<Url>, hasCache: bool)
    | LoadDidFail(target: Target, failedUrl: Url, error: LoadError)

  /** Library calls the request makes and the model does not look inside:
      `UIImage(data:)`, the redraw into a bitmap context of the same size and
      scale, `UIImage(named:)` (force-unwrapped by the caller) and the main
      bundle's resource path. */
  datatype Platform = Platform(
    decode: Bytes -> Option<Image>,
    redraw: Image -> Image,
    bundleImage: string -> Image,
    resourcePath: string)

  /** `NSString.hasPrefix`: an empty prefix never matches. */
  predicate HasPrefix(s: string, prefix: string)
  {
    |prefix| > 0 && prefix <= s
  }

  /** The URL names a file under the bundle's resource root: such an image is
      read from the bundle and bypasses the cache. */
  predicate IsBundlePath(u: Url, resourcePath: string)
  {
    u.path.Some? && HasPrefix(u.path.value, resourcePath)
  }

  /** What `cachedImage` finds for a non-nil URL: the bundled image for a path
      under the resource root, otherwise the cache entry, if any. */
  function ResolveImage(p: Platform, u: Url, entries: map<Url, Image>): (r: Option<Image>)
    ensures IsBundlePath(u, p.resourcePath) ==> r == Some(p.bundleImage(u.path.value[|p.resourcePath|..]))
    ensures !IsBundlePath(u, p.resourcePath) ==> (r.Some? <==> u in entries)
    ensures !IsBundlePath(u, p.resourcePath) && u in entries ==> r.value == entries[u]
  {
    if IsBundlePath(u, p.resourcePath) then
      Some(p.bundleImage(u.path.value[|p.resourcePath|..]))
    else if u in entries then Some(entries[u])
    else None
  }

  /** Whether a finished image is written to the cache: every URL except a
      bundled resource (the test `cachedImage` uses to read from the bundle).
      Every URL the code as written stores is stored here too, and with an
      empty resource path nothing is a bundled resource. */
  predicate StoreInCache(u: Url, resourcePath: string): (r: bool)
    ensures StoreInCacheAsWritten(u) ==> r
    ensures |resourcePath| == 0 ==> r
  {
    !IsBundlePath(u, resourcePath)
  }

  /** The same decision as the code writes it: the `!= nil` comparison holds for
      every URL whose absolute form has a path, so only path-less URLs are stored. */
  predicate StoreInCacheAsWritten(u: Url): (r: bool)
    ensures r ==> forall resourcePath :: !IsBundlePath(u, resourcePath)
  {
    u.path.None?
  }

  /** The cache contents after a finished image for `u` is offered to it, with
      the store test as the code writes it. */
  function StoredAsWritten(entries: map<Url, Image>, u: Url, img: Image): map<Url, Image>
  {
    if StoreInCacheAsWritten(u) then entries[u := img] else entries
  }

  /** The shared key-to-image cache (`NSCache`). */
  class ImageCache {
    var entries: map<Url, Image>

    constructor ()
      ensures entries == map[]
    {
      entries := map[];
    }

    method SetObject(img: Image, key: Url)
      modifies this
      ensures entries == old(entries)[key := img]
    {
      entries := entries[key := img];
    }

    /** The memory-warning handler empties the cache. */
    method RemoveAllObjects()
      modifies this
      ensures entries == map[]
    {
      entries := map[];
    }
  }

  /** The notifications posted so far, in order, in place of the broadcast
      notification center. */
  class NotificationCenter {
    var posted: seq<Notification>

    constructor ()
      ensures posted == []
    {
      posted := [];
    }

    method Post(n: Notification)
      modifies this
      ensures posted == old(posted) + [n]
    {
      posted := posted + [n];
    }
  }
}
