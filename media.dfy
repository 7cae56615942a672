/**
 * The URL accessors of a media record: the storage URL of its file, the
 * Mux playback URL of a video and the thumbnail URL, each derived from the
 * record's fields. The storage disk's `url` is a parameter `storageUrl`.
 */
module Media {
  import opened Wrappers

  /** The media kinds the `type` column is cast to. */
  datatype MediaType = Image | Video

  /** A media row; nullable string columns are `Option<string>`. */
  datatype Media = Media(
    socialMediaContentId: int,
    mediaType: MediaType,
    filePath: Option<string>,
    fileName: string,
    mimeType: Option<string>,
    size: Option<int>,
    muxAssetId: Option<string>,
    muxPlaybackId: Option<string>,
    muxUploadId: Option<string>,
    thumbnailPath: Option<string>)

  /** PHP truthiness of a nullable string: null, "" and "0" are falsy. */
  predicate Truthy(s: Option<string>) {
    s.Some? && s.value != "" && s.value != "0"
  }

  predicate IsImage(m: Media) {
    m.mediaType == Image
  }

  predicate IsVideo(m: Media) {
    m.mediaType == Video
  }

  /** Each record is exactly one of image and video. */
  lemma ImageOrVideo(m: Media)
    ensures IsImage(m) <==> !IsVideo(m)
  {
  }

  /* str_replace with one search string: a left-to-right scan that replaces
     every non-overlapping occurrence. */

  /** `pattern` occurs in `s` starting at index `i`. */
  predicate OccursAt(s: string, pattern: string, i: nat) {
    i + |pattern| <= |s| && s[i..i + |pattern|] == pattern
  }

  function ReplaceAll(s: string, pattern: string, replacement: string): string
    requires pattern != []
    decreases |s|
  {
    if |s| < |pattern| then s
    else if s[..|pattern|] == pattern then replacement + ReplaceAll(s[|pattern|..], pattern, replacement)
    else [s[0]] + ReplaceAll(s[1..], pattern, replacement)
  }

  /** A string in which the pattern does not occur is left as it is. */
  lemma {:induction false} ReplaceAbsent(s: string, pattern: string, replacement: string)
    requires pattern != []
    requires forall i: nat :: !OccursAt(s, pattern, i)
    ensures ReplaceAll(s, pattern, replacement) == s
    decreases |s|
  {
    if |s| >= |pattern| {
      assert !OccursAt(s, pattern, 0);
      assert forall i: nat :: !OccursAt(s[1..], pattern, i) by {
        forall i: nat
          ensures !OccursAt(s[1..], pattern, i)
        {
          assert !OccursAt(s, pattern, i + 1);
          if i + |pattern| <= |s[1..]| {
            assert s[1..][i..i + |pattern|] == s[i + 1..i + 1 + |pattern|];
          }
        }
      }
      ReplaceAbsent(s[1..], pattern, replacement);
    }
  }

  const MinioHost := "http://minio:9000"
  const LocalHost := "http://localhost:9002"

  /** replaceMinioUrl: the internal MinIO host of a URL becomes the host-facing one. */
  function ReplaceMinioUrl(url: string): string {
    ReplaceAll(url, MinioHost, LocalHost)
  }

  /** An occurrence of the MinIO host at the start becomes the host-facing one. */
  lemma ReplaceAtHost(t: string)
    ensures ReplaceMinioUrl(MinioHost + t) == LocalHost + ReplaceMinioUrl(t)
  {
    var s := MinioHost + t;
    assert s[..|MinioHost|] == MinioHost;
    assert s[|MinioHost|..] == t;
  }

  /** A character that does not start the MinIO host is copied, and the scan moves on. */
  lemma ReplaceKeepsHead(s: string)
    requires s != [] && !OccursAt(s, MinioHost, 0)
    ensures ReplaceMinioUrl(s) == [s[0]] + ReplaceMinioUrl(s[1..])
  {
    if |s| < |MinioHost| {
      assert ReplaceMinioUrl(s) == s;
      assert ReplaceMinioUrl(s[1..]) == s[1..];
      assert s == [s[0]] + s[1..];
    }
  }

  /** A URL on the MinIO host with a path free of 'h' moves to the host-facing host, path kept. */
  lemma ReplaceHostPath(path: string)
    requires 'h' !in path
    ensures ReplaceMinioUrl(MinioHost + path) == LocalHost + path
  {
    ReplaceAtHost(path);
    forall i: nat
      ensures !OccursAt(path, MinioHost, i)
    {
      if i + |MinioHost| <= |path| {
        assert path[i] in path;
        assert path[i..i + |MinioHost|][0] == path[i] != MinioHost[0];
      }
    }
    ReplaceAbsent(path, MinioHost, LocalHost);
  }

  /** A storage URL of the local MinIO disk, as the container sees it, becomes the browser's. */
  lemma MinioUrlExample()
    ensures ReplaceMinioUrl("http://minio:9000/media/a.jpg") == "http://localhost:9002/media/a.jpg"
  {
    assert "http://minio:9000/media/a.jpg" == MinioHost + "/media/a.jpg";
    ReplaceHostPath("/media/a.jpg");
  }

  /**
   * A prefix without an 'h' in the replaced string is a prefix of the
   * original: every replacement starts with the 'h' of "http".
   */
  lemma {:induction false} PrefixWithoutH(s: string, q: string)
    requires 'h' !in q
    requires q <= ReplaceMinioUrl(s)
    ensures q <= s
    decreases |s|
  {
    if q == [] {
    } else if |s| < |MinioHost| {
      assert ReplaceMinioUrl(s) == s;
    } else if s[..|MinioHost|] != MinioHost {
      var r := ReplaceMinioUrl(s[1..]);
      assert ReplaceMinioUrl(s) == [s[0]] + r;
      assert q[1..] <= r;
      assert 'h' !in q[1..] by {
        forall k | 0 <= k < |q[1..]|
          ensures q[1..][k] != 'h'
        {
          assert q[1..][k] == q[k + 1];
        }
      }
      PrefixWithoutH(s[1..], q[1..]);
    } else {
      ReplaceHit(s);
    }
  }

  /** At an occurrence of the MinIO host the output starts with the replacement. */
  lemma ReplaceHit(s: string)
    requires |s| >= |MinioHost| && s[..|MinioHost|] == MinioHost
    ensures ReplaceMinioUrl(s)[0] == 'h'
  {
  }

  /** No occurrence of the MinIO host starts inside the replacement text. */
  lemma NoMinioAfterLocalHost(r: string)
    requires forall i: nat :: !OccursAt(r, MinioHost, i)
    ensures forall i: nat :: !OccursAt(LocalHost + r, MinioHost, i)
  {
    var t := LocalHost + r;
    var n := |MinioHost|;
    forall i: nat
      ensures !OccursAt(t, MinioHost, i)
    {
      if i + n <= |t| {
        if i >= |LocalHost| {
          assert t[i..i + n] == r[i - |LocalHost|..i - |LocalHost| + n];
          assert !OccursAt(r, MinioHost, i - |LocalHost|);
        } else if i == 0 {
          assert t[i..i + n][7] != MinioHost[7];
        } else if i == 12 {
          assert t[i..i + n][1] != MinioHost[1];
        } else {
          assert t[i..i + n][0] == LocalHost[i] != MinioHost[0];
        }
      }
    }
  }

  /** A string whose head does not start the MinIO host keeps that property after its tail is replaced. */
  lemma NoMinioAfterChar(s: string)
    requires |s| >= |MinioHost| && s[..|MinioHost|] != MinioHost
    requires forall i: nat :: !OccursAt(ReplaceMinioUrl(s[1..]), MinioHost, i)
    ensures forall i: nat :: !OccursAt([s[0]] + ReplaceMinioUrl(s[1..]), MinioHost, i)
  {
    var r := ReplaceMinioUrl(s[1..]);
    var t := [s[0]] + r;
    var n := |MinioHost|;
    forall i: nat
      ensures !OccursAt(t, MinioHost, i)
    {
      if i == 0 {
        NoMinioAtHead(s);
      } else if i + n <= |t| {
        assert t[i..i + n] == r[i - 1..i - 1 + n];
        assert !OccursAt(r, MinioHost, i - 1);
      }
    }
  }

  /** The MinIO host cannot start at a kept head character. */
  lemma NoMinioAtHead(s: string)
    requires |s| >= |MinioHost| && s[..|MinioHost|] != MinioHost
    ensures !OccursAt([s[0]] + ReplaceMinioUrl(s[1..]), MinioHost, 0)
  {
    var r := ReplaceMinioUrl(s[1..]);
    var t := [s[0]] + r;
    var n := |MinioHost|;
    if OccursAt(t, MinioHost, 0) {
      var q := MinioHost[1..];
      assert 'h' !in q;
      assert q <= r by {
        assert t[..n] == MinioHost;
        assert r[..n - 1] == t[1..n];
      }
      PrefixWithoutH(s[1..], q);
    }
  }

  /** No occurrence of the MinIO host survives the replacement. */
  lemma {:induction false} NoMinioLeft(s: string)
    ensures forall i: nat :: !OccursAt(ReplaceMinioUrl(s), MinioHost, i)
    decreases |s|
  {
    var n := |MinioHost|;
    if |s| < n {
      assert ReplaceMinioUrl(s) == s;
    } else if s[..n] == MinioHost {
      NoMinioLeft(s[n..]);
      NoMinioAfterLocalHost(ReplaceMinioUrl(s[n..]));
    } else {
      NoMinioLeft(s[1..]);
      NoMinioAfterChar(s);
      assert ReplaceMinioUrl(s) == [s[0]] + ReplaceMinioUrl(s[1..]);
    }
  }

  /** getUrlAttribute: no URL without a (truthy) file path. */
  function Url(m: Media, storageUrl: string -> string): (r: Option<string>)
    ensures r.None? <==> !Truthy(m.filePath)
    ensures r.Some? ==> r.value == ReplaceMinioUrl(storageUrl(m.filePath.value))
    ensures r.Some? ==> forall i: nat :: !OccursAt(r.value, MinioHost, i)
  {
    if !Truthy(m.filePath) then None
    else
      NoMinioLeft(storageUrl(m.filePath.value));
      Some(ReplaceMinioUrl(storageUrl(m.filePath.value)))
  }

  /** getPlaybackUrlAttribute: the HLS stream of a video with a playback id. */
  function PlaybackUrl(m: Media): (r: Option<string>)
    ensures r.Some? <==> IsVideo(m) && Truthy(m.muxPlaybackId)
    ensures r.Some? ==> r.value == "https://stream.mux.com/" + m.muxPlaybackId.value + ".m3u8"
  {
    if !IsVideo(m) || !Truthy(m.muxPlaybackId) then None
    else Some("https://stream.mux.com/" + m.muxPlaybackId.value + ".m3u8")
  }

  /** getThumbnailUrlAttribute: the stored thumbnail first, then Mux's for a video. */
  function ThumbnailUrl(m: Media, storageUrl: string -> string): (r: Option<string>)
    ensures r.Some? <==> Truthy(m.thumbnailPath) || PlaybackUrl(m).Some?
    ensures Truthy(m.thumbnailPath) ==> forall i: nat :: !OccursAt(r.value, MinioHost, i)
  {
    if Truthy(m.thumbnailPath) then
      NoMinioLeft(storageUrl(m.thumbnailPath.value));
      Some(ReplaceMinioUrl(storageUrl(m.thumbnailPath.value)))
    else if IsVideo(m) && Truthy(m.muxPlaybackId) then
      Some("https://image.mux.com/" + m.muxPlaybackId.value + "/thumbnail.jpg")
    else None
  }

  /** A stored thumbnail wins, for videos with a playback id as well. */
  lemma ThumbnailPrefersStored(m: Media, storageUrl: string -> string)
    requires Truthy(m.thumbnailPath)
    ensures ThumbnailUrl(m, storageUrl) == Some(ReplaceMinioUrl(storageUrl(m.thumbnailPath.value)))
    ensures forall i: nat :: !OccursAt(ThumbnailUrl(m, storageUrl).value, MinioHost, i)
  {
    NoMinioLeft(storageUrl(m.thumbnailPath.value));
  }

  /**
   * Without a stored thumbnail there is a thumbnail exactly when there is a
   * playback URL, and it is the Mux thumbnail of the same playback id.
   */
  lemma ThumbnailFallback(m: Media, storageUrl: string -> string)
    requires !Truthy(m.thumbnailPath)
    ensures ThumbnailUrl(m, storageUrl).Some? <==> PlaybackUrl(m).Some?
    ensures ThumbnailUrl(m, storageUrl).Some? ==>
      ThumbnailUrl(m, storageUrl).value == "https://image.mux.com/" + m.muxPlaybackId.value + "/thumbnail.jpg"
  {
  }

  /** An image has neither a playback URL nor a Mux thumbnail. */
  lemma ImageHasNoMuxUrls(m: Media, storageUrl: string -> string)
    requires IsImage(m)
    ensures PlaybackUrl(m).None?
    ensures ThumbnailUrl(m, storageUrl).Some? <==> Truthy(m.thumbnailPath)
  {
  }

  /** The lookalike "https://minio:9000" is not the pattern and is kept. */
  lemma HttpsMinioKept()
    ensures ReplaceMinioUrl("https://minio:9000/x") == "https://minio:9000/x"
  {
    var s := "https://minio:9000/x";
    forall i: nat
      ensures !OccursAt(s, MinioHost, i)
    {
      if i + |MinioHost| <= |s| {
        if i == 0 {
          assert s[i..i + |MinioHost|][4] == s[4] != MinioHost[4];
        } else {
          assert s[i..i + |MinioHost|][0] == s[i] != MinioHost[0];
        }
      }
    }
    ReplaceAbsent(s, MinioHost, LocalHost);
  }
}
