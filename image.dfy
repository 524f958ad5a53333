/**
 * Image: a reference to an image the payment application fetches later, as a
 * URL string and a MIME type.
 */
module Images {
  import opened Errors
  import opened Integers

  /** `android.net.Uri`, represented by its string form. */
  type Uri = string

  /** The supported image types. */
  datatype ImageType = JPEG | PNG {
    function MimeType(): (m: string)
      ensures |m| > 6 && m[..6] == "image/"
    {
      match this
      case JPEG => "image/jpeg"
      case PNG => "image/png"
    }
  }

  datatype Image = Image(url: Uri, imageType: ImageType)

  /** `new Image(url, type)`: both arguments are required; the url is stored as its string form. */
  function NewImage(url: Option<Uri>, imageType: Option<ImageType>): (r: Result<Image>)
    ensures r.Ok? <==> url.Some? && imageType.Some?
    ensures r.Ok? ==> r.value.url == url.value && r.value.imageType == imageType.value
    ensures r.Err? ==> r.error == NullPointer(None)
  {
    if url.None? || imageType.None? then Err(NullPointer(None))
    else Ok(Image(url.value, imageType.value))
  }

  const RESOURCE_PREFIX := "android.resource://"

  /** The URL of resource `resourceId` of the application whose package is `packageName`. */
  function ResourceUrl(packageName: string, resourceId: int): (u: Uri)
    ensures |u| > |RESOURCE_PREFIX| + |packageName| && u[..|RESOURCE_PREFIX|] == RESOURCE_PREFIX
    ensures u[|RESOURCE_PREFIX|..|RESOURCE_PREFIX| + |packageName|] == packageName
    ensures AfterLastSlash(u) == Decimal(resourceId)
  {
    var d := Decimal(resourceId);
    assert '/' !in d by {
      forall i | 0 <= i < |d| ensures d[i] != '/' { }
    }
    AfterLastSlashOf(RESOURCE_PREFIX + packageName, d);
    RESOURCE_PREFIX + packageName + "/" + d
  }

  /**
   * `Image.forResource(context, resourceId, type)`, with the context given by
   * its package name.
   */
  function ForResource(packageName: string, resourceId: int32, imageType: Option<ImageType>): (r: Result<Image>)
    ensures r.Ok? <==> imageType.Some?
    ensures r.Ok? ==> r.value.imageType == imageType.value
    ensures r.Ok? ==> r.value.url == "android.resource://" + packageName + "/" + Decimal(resourceId)
    ensures r.Err? ==> r.error == NullPointer(None)
  {
    NewImage(Some(ResourceUrl(packageName, resourceId)), imageType)
  }

  /** The check `readObject` runs on the fields as read: url first, then type. */
  function ReadImage(url: Option<Uri>, imageType: Option<ImageType>): (r: Result<Image>)
    ensures r.Ok? <==> url.Some? && imageType.Some?
    ensures r.Ok? ==> r.value == Image(url.value, imageType.value)
    ensures url.None? ==> r == Err(Assertion("missing url"))
    ensures url.Some? && imageType.None? ==> r == Err(Assertion("missing type"))
  {
    if url.None? then Err(Assertion("missing url"))
    else if imageType.None? then Err(Assertion("missing type"))
    else Ok(Image(url.value, imageType.value))
  }

  /**
   * Deserialization accepts exactly the arguments the constructor accepts, so
   * every constructed Image survives a serialization round trip.
   */
  lemma ReadImageAgreesWithConstructor(url: Option<Uri>, imageType: Option<ImageType>)
    ensures ReadImage(url, imageType).Ok? <==> NewImage(url, imageType).Ok?
    ensures NewImage(url, imageType).Ok? ==> ReadImage(url, imageType) == NewImage(url, imageType)
    ensures NewImage(url, imageType).Ok? ==>
              var i := NewImage(url, imageType).value; ReadImage(Some(i.url), Some(i.imageType)) == Ok(i)
  {
  }

  /** Different image types have different MIME types. */
  lemma MimeTypeInjective(a: ImageType, b: ImageType)
    ensures a.MimeType() == b.MimeType() <==> a == b
  {
  }

  /** The part of `u` after its last slash (all of `u` when it has none). */
  function AfterLastSlash(u: string): (s: string)
    ensures |s| <= |u| && s == u[|u| - |s|..] && '/' !in s
  {
    if u == [] || u[|u| - 1] == '/' then []
    else
      var init := u[..|u| - 1];
      var t := AfterLastSlash(init);
      assert init[|init| - |t|..] + [u[|u| - 1]] == u[|u| - |t| - 1..];
      t + [u[|u| - 1]]
  }

  lemma {:induction false} AfterLastSlashOf(a: string, b: string)
    requires '/' !in b
    ensures AfterLastSlash(a + "/" + b) == b
    decreases |b|
  {
    var u := a + "/" + b;
    if b != [] {
      var b' := b[..|b| - 1];
      assert u[..|u| - 1] == a + "/" + b';
      AfterLastSlashOf(a, b');
      assert b == b' + [b[|b| - 1]];
    }
  }

  /** Splitting `a + "/" + b` at its last slash, when `b` holds none. */
  lemma SplitAtLastSlash(a: string, b: string, c: string, d: string)
    requires a + "/" + b == c + "/" + d
    requires '/' !in b && '/' !in d
    ensures a == c && b == d
  {
    AfterLastSlashOf(a, b);
    AfterLastSlashOf(c, d);
    var u := a + "/" + b;
    assert a == u[..|a|] && c == u[..|c|];
  }

  /** Distinct resources get distinct URLs: the package name and the id can be read back. */
  lemma {:induction false} ResourceUrlInjective(p1: string, id1: int, p2: string, id2: int)
    requires ResourceUrl(p1, id1) == ResourceUrl(p2, id2)
    ensures p1 == p2 && id1 == id2
  {
    var d1, d2 := Decimal(id1), Decimal(id2);
    assert '/' !in d1 && '/' !in d2 by {
      forall i | 0 <= i < |d1| ensures d1[i] != '/' { }
      forall i | 0 <= i < |d2| ensures d2[i] != '/' { }
    }
    assert RESOURCE_PREFIX + p1 + "/" + d1 == RESOURCE_PREFIX + p2 + "/" + d2;
    assert (RESOURCE_PREFIX + p1) + "/" + d1 == (RESOURCE_PREFIX + p2) + "/" + d2;
    SplitAtLastSlash(RESOURCE_PREFIX + p1, d1, RESOURCE_PREFIX + p2, d2);
    assert p1 == (RESOURCE_PREFIX + p1)[|RESOURCE_PREFIX|..];
    assert p2 == (RESOURCE_PREFIX + p2)[|RESOURCE_PREFIX|..];
    DecimalInjective(id1, id2);
  }
}
