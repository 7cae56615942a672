/**
 * The accepted MIME types of uploaded media and the value lists built from
 * them: the image types, the video types and both together.
 */
module MimeType {
  datatype MimeType = ImageJpeg | ImagePng | ImageGif | ImageWebp | VideoMp4 {
    /** The string each case is backed by. */
    function Value(): string {
      match this
      case ImageJpeg => "image/jpeg"
      case ImagePng => "image/png"
      case ImageGif => "image/gif"
      case ImageWebp => "image/webp"
      case VideoMp4 => "video/mp4"
    }

    /** The cases named Image*. */
    predicate IsImageCase() {
      this != VideoMp4
    }
  }

  /** `array_merge` of two lists: the first followed by the second, renumbered. */
  function ArrayMerge(a: seq<string>, b: seq<string>): (r: seq<string>)
    ensures |r| == |a| + |b|
    ensures r[..|a|] == a && r[|a|..] == b
  {
    a + b
  }

  function ImageValues(): (vs: seq<string>)
    ensures |vs| == 4
    ensures forall i :: 0 <= i < |vs| ==> "image/" <= vs[i]
  {
    [ImageJpeg.Value(), ImagePng.Value(), ImageGif.Value(), ImageWebp.Value()]
  }

  function VideoValues(): (vs: seq<string>)
    ensures |vs| == 1
    ensures forall i :: 0 <= i < |vs| ==> "video/" <= vs[i]
  {
    [VideoMp4.Value()]
  }

  function AllValues(): (vs: seq<string>)
    ensures vs == ImageValues() + VideoValues()
  {
    ArrayMerge(ImageValues(), VideoValues())
  }

  /** The lists in their declared order. */
  lemma ExactLists()
    ensures ImageValues() == ["image/jpeg", "image/png", "image/gif", "image/webp"]
    ensures VideoValues() == ["video/mp4"]
    ensures AllValues() == ["image/jpeg", "image/png", "image/gif", "image/webp", "video/mp4"]
  {
  }

  /** Each list holds the values of exactly its kind of case. */
  lemma ListsMatchCases(m: MimeType)
    ensures m.Value() in ImageValues() <==> m.IsImageCase()
    ensures m.Value() in VideoValues() <==> !m.IsImageCase()
    ensures m.Value() in AllValues()
  {
  }

  /** Only case values appear in the lists. */
  lemma ListsHoldOnlyCases(v: string)
    requires v in AllValues()
    ensures exists m: MimeType :: m.Value() == v
  {
    if v == "image/jpeg" {
      assert ImageJpeg.Value() == v;
    } else if v == "image/png" {
      assert ImagePng.Value() == v;
    } else if v == "image/gif" {
      assert ImageGif.Value() == v;
    } else if v == "image/webp" {
      assert ImageWebp.Value() == v;
    } else {
      assert VideoMp4.Value() == v;
    }
  }

  /** Distinct cases have distinct values. */
  lemma ValueInjective(m: MimeType, n: MimeType)
    requires m.Value() == n.Value()
    ensures m == n
  {
  }

  /** Every case value occurs in the combined list exactly once. */
  lemma EachValueOnce(m: MimeType)
    ensures multiset(AllValues())[m.Value()] == 1
  {
    var vs := AllValues();
    assert vs == ["image/jpeg", "image/png", "image/gif", "image/webp", "video/mp4"];
  }

  /** No value is both an image type and a video type. */
  lemma Disjoint()
    ensures forall v :: v in ImageValues() ==> v !in VideoValues()
  {
    forall v | v in ImageValues()
      ensures v !in VideoValues()
    {
      var i :| 0 <= i < |ImageValues()| && ImageValues()[i] == v;
      assert "image/" <= v;
      assert "video/" <= VideoValues()[0];
    }
  }
}
