/** Image URL rewriting for the image host: resizing, automatic format and quality. */
module Cloudinary {
  import opened Options
  import opened Strings

  const HOST := "cloudinary.com"
  const UPLOAD := "/upload/"

  /** The path segment inserted after "/upload/" for a given width. */
  function Transformation(width: nat): string {
    "w_" + NatToString(width) + ",f_auto,q_auto/"
  }

  /**
   * `cloudinaryUrl(url, width)`: a URL of the image host has the
   * transformation inserted right after its first "/upload/"; any other URL,
   * the empty one included, is returned as it is.
   */
  function CloudinaryUrl(url: string, width: nat): (r: string)
    ensures url == "" || !Contains(url, HOST) || !Contains(url, UPLOAD) ==> r == url
    ensures url != "" && Contains(url, HOST) && Contains(url, UPLOAD) ==>
      exists i: nat ::
        && OccursAt(url, UPLOAD, i)
        && (forall j: nat :: j < i ==> !OccursAt(url, UPLOAD, j))
        && r == url[..i + |UPLOAD|] + Transformation(width) + url[i + |UPLOAD|..]
  {
    if url == "" || !Contains(url, HOST) then url
    else
      var r := ReplaceFirst(url, UPLOAD, UPLOAD + Transformation(width));
      if Contains(url, UPLOAD) then
        var i := IndexOf(url, UPLOAD).value;
        assert url[..i + |UPLOAD|] == url[..i] + UPLOAD by {
          assert url[i..i + |UPLOAD|] == UPLOAD;
        }
        assert forall j: nat :: j < i ==> !OccursAt(url, UPLOAD, j);
        r
      else r
  }

  /** Rewriting keeps everything before the first "/upload/" and everything after it, and adds only the transformation. */
  lemma CloudinaryUrlLength(url: string, width: nat)
    ensures |CloudinaryUrl(url, width)| == |url| + (if url != "" && Contains(url, HOST) && Contains(url, UPLOAD)
                                                     then |Transformation(width)| else 0)
  {
  }

  /** The text before the first "/upload/" is never touched. */
  lemma CloudinaryUrlKeepsPrefix(url: string, width: nat)
    requires url != "" && Contains(url, HOST)
    ensures StartsWith(CloudinaryUrl(url, width), url[..FirstUpload(url)])
  {
  }

  /** Where the first "/upload/" starts, or `|url|` when there is none. */
  function FirstUpload(url: string): (i: nat)
    ensures i <= |url|
  {
    match IndexOf(url, UPLOAD)
    case Some(i) => assert OccursAt(url, UPLOAD, i); i
    case None => |url|
  }

  const WIDTHS: seq<nat> := [400, 800, 1200]

  /** One `srcSet` candidate: the rewritten URL and its width descriptor. */
  function Candidate(url: string, width: nat): string {
    CloudinaryUrl(url, width) + (" " + NatToString(width) + "w")
  }

  /** One candidate per width, in the order of `WIDTHS`. */
  function Candidates(url: string): seq<string> {
    seq(|WIDTHS|, k requires 0 <= k < |WIDTHS| => Candidate(url, WIDTHS[k]))
  }

  /** `cloudinarySrcSet(url)`: the 400, 800 and 1200 pixel renditions, each with its width descriptor. */
  function SrcSet(url: string): (r: string)
    ensures r ==
      CloudinaryUrl(url, 400) + " 400w, " + CloudinaryUrl(url, 800) + " 800w, " + CloudinaryUrl(url, 1200) + " 1200w"
  {
    SrcSetCandidates(url);
    Join(Candidates(url), ", ")
  }

  /** The widths' decimal texts. */
  lemma WidthTexts()
    ensures NatToString(400) == "400" && NatToString(800) == "800" && NatToString(1200) == "1200"
  {
    assert NatToString(4) == "4" && NatToString(40) == "40";
    assert NatToString(8) == "8" && NatToString(80) == "80";
    assert NatToString(1) == "1" && NatToString(12) == "12" && NatToString(120) == "120";
  }

  /** The candidates joined: exactly three, for 400, 800 and 1200 pixels, in that order. */
  lemma SrcSetCandidates(url: string)
    ensures Join(Candidates(url), ", ") ==
      CloudinaryUrl(url, 400) + " 400w, " + CloudinaryUrl(url, 800) + " 800w, " + CloudinaryUrl(url, 1200) + " 1200w"
  {
    WidthTexts();
    var a, b, c := CloudinaryUrl(url, 400), CloudinaryUrl(url, 800), CloudinaryUrl(url, 1200);
    var parts := Candidates(url);
    assert |parts| == 3;
    assert parts[0] == a + " 400w" by {
      assert " " + "400" + "w" == " 400w";
    }
    assert parts[1] == b + " 800w" by {
      assert " " + "800" + "w" == " 800w";
    }
    assert parts[2] == c + " 1200w" by {
      assert " " + "1200" + "w" == " 1200w";
    }
    JoinThree(parts, ", ");
    ConcatSeven(a, " 400w", ", ", b, " 800w", c, " 1200w");
    assert " 400w" + ", " == " 400w, " && " 800w" + ", " == " 800w, ";
  }

  lemma JoinThree(parts: seq<string>, sep: string)
    requires |parts| == 3
    ensures Join(parts, sep) == parts[0] + sep + (parts[1] + sep + parts[2])
  {
    var rest := parts[1..];
    assert rest[1..] == [parts[2]];
    assert Join(rest[1..], sep) == parts[2];
    assert Join(rest, sep) == rest[0] + sep + Join(rest[1..], sep);
  }

  lemma ConcatSeven(a: string, x: string, sep: string, b: string, y: string, c: string, z: string)
    ensures (a + x) + sep + ((b + y) + sep + (c + z)) == a + (x + sep) + b + (y + sep) + c + z
  {
  }
}
