/**
 * The image filter of split_dataset: a directory entry is selected when its
 * lower-cased name ends with one of five image extensions and it is a regular file.
 */
module FileNames {
  import opened Seqs

  /** The extensions split_dataset accepts, in lower case and with the leading dot. */
  const ImageExtensions: seq<string> := [".jpg", ".jpeg", ".png", ".bmp", ".tiff"]

  /** str.lower() on one character, for the ASCII letters. */
  function LowerChar(c: char): (r: char)
    ensures !('A' <= r <= 'Z')
    ensures !('A' <= c <= 'Z') ==> r == c
  {
    if 'A' <= c <= 'Z' then (c as int - 'A' as int + 'a' as int) as char else c
  }

  /** str.lower(): same length, every upper-case ASCII letter replaced by its lower-case form. */
  function Lower(s: string): (r: string)
    ensures |r| == |s|
    ensures forall i :: 0 <= i < |s| ==> r[i] == LowerChar(s[i])
    ensures forall i :: 0 <= i < |r| ==> !('A' <= r[i] <= 'Z')
  {
    if s == [] then [] else [LowerChar(s[0])] + Lower(s[1..])
  }

  /** str.endswith for a single suffix: the last |suffix| characters are those of suffix. */
  predicate EndsWith(s: string, suffix: string)
    ensures EndsWith(s, suffix) <==>
      |suffix| <= |s| && forall k :: 0 <= k < |suffix| ==> s[|s| - |suffix| + k] == suffix[k]
  {
    |suffix| <= |s| && s[|s| - |suffix|..] == suffix
  }

  /**
   * name.lower().endswith(image_extensions): true when any one extension matches, so
   * an image name is at least as long as the shortest extension.
   */
  predicate IsImageName(name: string)
    ensures IsImageName(name) ==> 4 <= |name|
  {
    exists i :: 0 <= i < |ImageExtensions| && EndsWith(Lower(name), ImageExtensions[i])
  }

  /**
   * The list comprehension over the directory listing: keeps, in listing order, the
   * names that are image names and that `regular` (the entries that are regular files)
   * contains.
   */
  function SelectImages(names: seq<string>, regular: set<string>): (images: seq<string>)
    ensures forall n :: n in images <==> n in names && IsImageName(n) && n in regular
    ensures |images| <= |names|
    ensures Distinct(names) ==> Distinct(images)
  {
    if names == [] then []
    else
      var rest := SelectImages(names[1..], regular);
      if IsImageName(names[0]) && names[0] in regular then
        assert Distinct(names) ==> names[0] !in rest by {
          if Distinct(names) {
            forall k | 0 <= k < |names| - 1 ensures names[1..][k] != names[0] {
              assert names[1..][k] == names[k + 1];
            }
          }
        }
        [names[0]] + rest
      else rest
  }

  /** Lower-casing twice is lower-casing once. */
  lemma {:induction false} LowerIdempotent(s: string)
    ensures Lower(Lower(s)) == Lower(s)
  {
    if s != [] {
      LowerIdempotent(s[1..]);
      assert Lower(s)[1..] == Lower(s[1..]);
    }
  }

  /** The filter ignores case: a name and its lower-cased form get the same verdict. */
  lemma CaseInsensitive(name: string)
    ensures IsImageName(Lower(name)) == IsImageName(name)
  {
    LowerIdempotent(name);
  }

  /** A string does not end with a suffix whose last character differs from its own. */
  lemma LastCharDiffers(s: string, suffix: string)
    requires s != [] && suffix != [] && s[|s| - 1] != suffix[|suffix| - 1]
    ensures !EndsWith(s, suffix)
  {
    if |suffix| <= |s| {
      assert s[|s| - |suffix|..][|suffix| - 1] == s[|s| - 1];
    }
  }

  /** A name whose lower-cased form ends with .txt is never an image name. */
  lemma TextFileIsNotImage(name: string)
    requires EndsWith(Lower(name), ".txt")
    ensures !IsImageName(name)
  {
    var s := Lower(name);
    forall i | 0 <= i < |ImageExtensions|
      ensures !EndsWith(s, ImageExtensions[i])
    {
      LastCharDiffers(s, ImageExtensions[i]);
    }
  }

  /** An upper-case extension is selected. */
  lemma UpperCaseSelected()
    ensures IsImageName("a.JPG")
  {
    assert EndsWith(Lower("a.JPG"), ImageExtensions[0]) by {
      assert Lower("a.JPG") == "a.jpg";
    }
  }

  /** A name that is nothing but an extension (a hidden file such as ".png") is selected. */
  lemma ExtensionOnlySelected()
    ensures IsImageName(".png")
  {
    assert EndsWith(Lower(".png"), ImageExtensions[2]) by {
      assert Lower(".png") == ".png";
    }
  }

  /** A .tif name is dropped: the extension list has .tiff only. */
  lemma TifIsRejected()
    ensures !IsImageName("a.tif")
  {
    assert Lower("a.tif") == "a.tif" by {
      assert |Lower("a.tif")| == 5;
    }
    forall i | 0 <= i < |ImageExtensions|
      ensures !EndsWith("a.tif", ImageExtensions[i])
    {
      if i == 4 {
        assert "a.tif"[0] != ImageExtensions[4][0];
      } else {
        LastCharDiffers("a.tif", ImageExtensions[i]);
      }
    }
  }

  /** An extension without its dot is dropped. */
  lemma BareExtensionIsRejected()
    ensures !IsImageName("jpg")
  {
    assert |Lower("jpg")| == 3;
  }
}
