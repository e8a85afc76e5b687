// core/forms/widgets.py: `ExistingImageWidget.get_available_images` walks the
// images (already ordered by sub_type), collects each run of equal sub_types,
// stores a run under its sub_type when the next run starts, and finally drops
// the entry of the empty sub_type.
module Widgets {

  /** An `AlreadyUploadedImage`, reduced to what the grouping reads. */
  datatype Image = Image(key: int, subType: string)

  /** The loop's variables: `image_options`, `current_type`, `images_this_type`. */
  datatype ScanState = ScanState(options: map<string, seq<Image>>, current: string, run: seq<Image>)

  /** The loop's state after the images of `s`. */
  function Scan(s: seq<Image>): ScanState
    decreases |s|
  {
    if |s| == 0 then ScanState(map[], "", [])
    else
      var st := Scan(s[..|s| - 1]);
      var img := s[|s| - 1];
      if img.subType == st.current then ScanState(st.options, st.current, st.run + [img])
      else ScanState(st.options[st.current := st.run], img.subType, [img])
  }

  /** The result: the last run stored, then the empty sub_type's entry removed. */
  function AvailableImages(images: seq<Image>): map<string, seq<Image>>
  {
    var st := Scan(images);
    st.options[st.current := st.run] - {""}
  }

  /** `get_available_images`, over the images the query returns. */
  method GetAvailableImages(images: seq<Image>) returns (imageOptions: map<string, seq<Image>>)
    ensures imageOptions == AvailableImages(images)
    ensures "" !in imageOptions
  {
    imageOptions := map[];
    var currentType := "";
    var imagesThisType: seq<Image> := [];
    var i := 0;
    while i < |images|
      invariant 0 <= i <= |images|
      invariant Scan(images[..i]) == ScanState(imageOptions, currentType, imagesThisType)
    {
      assert images[..i + 1][..i] == images[..i];
      var img := images[i];
      if img.subType == currentType {
        imagesThisType := imagesThisType + [img];
      } else {
        imageOptions := imageOptions[currentType := imagesThisType];
        imagesThisType := [img];
        currentType := img.subType;
      }
      i := i + 1;
    }
    assert images[..i] == images;
    imageOptions := imageOptions[currentType := imagesThisType];
    assert "" in imageOptions by {
      EmptyTypeStored(images);
    }
    imageOptions := imageOptions - {""};
  }

  /** The `del image_options[""]` never raises: the empty sub_type always has an entry by then. */
  lemma {:induction false} EmptyTypeStored(s: seq<Image>)
    ensures var st := Scan(s); "" in st.options || st.current == ""
    decreases |s|
  {
    if |s| > 0 {
      EmptyTypeStored(s[..|s| - 1]);
    }
  }

  /** The images of one sub_type, in input order. */
  function OfType(s: seq<Image>, t: string): (r: seq<Image>)
    ensures |r| <= |s|
    ensures forall x :: x in r ==> x in s && x.subType == t
    decreases |s|
  {
    if |s| == 0 then []
    else if s[|s| - 1].subType == t then OfType(s[..|s| - 1], t) + [s[|s| - 1]]
    else OfType(s[..|s| - 1], t)
  }

  /** Some image has this sub_type exactly when its list is non-empty. */
  lemma {:induction false} OfTypeEmpty(s: seq<Image>, t: string)
    ensures OfType(s, t) == [] <==> forall i :: 0 <= i < |s| ==> s[i].subType != t
    decreases |s|
  {
    if |s| > 0 {
      OfTypeEmpty(s[..|s| - 1], t);
      assert forall i :: 0 <= i < |s| - 1 ==> s[..|s| - 1][i] == s[i];
    }
  }

  /** Equal sub_types are adjacent, as ordering by sub_type makes them. */
  predicate Contiguous(s: seq<Image>)
  {
    forall i, j, k :: 0 <= i < j < k < |s| && s[i].subType == s[k].subType ==> s[j].subType == s[i].subType
  }

  /**
   * The loop's state after `s` is complete: the current run holds every
   * image of the current sub_type, every stored sub_type holds all its
   * images, and a sub_type other than the current one is stored exactly
   * when some image has it.
   */
  ghost predicate Complete(s: seq<Image>, st: ScanState)
  {
    st.run == OfType(s, st.current)
    && (st.current != "" ==> st.current !in st.options && st.run != [])
    && (forall t :: t in st.options && t != "" ==> st.options[t] == OfType(s, t))
    && (forall t :: t != "" && t != st.current ==> (t in st.options <==> OfType(s, t) != []))
  }

  /** What the loop keeps true on contiguous input. */
  lemma {:induction false} ScanInvariant(s: seq<Image>)
    requires Contiguous(s)
    ensures Complete(s, Scan(s))
    decreases |s|
  {
    if |s| > 0 {
      var front := s[..|s| - 1];
      var img := s[|s| - 1];
      ContiguousPrefix(s);
      ScanInvariant(front);
      var st := Scan(front);
      assert forall t :: t != img.subType ==> OfType(s, t) == OfType(front, t);
      if img.subType == st.current {
        SameRunStep(s, st);
      } else {
        if |front| > 0 {
          LastSubType(front);
          NewTypeAbsent(s);
        }
        OfTypeEmpty(front, img.subType);
        NewRunStep(s, st);
      }
    }
  }

  /** An image continuing the current run keeps the state complete. */
  lemma SameRunStep(s: seq<Image>, st: ScanState)
    requires |s| > 0 && Complete(s[..|s| - 1], st) && s[|s| - 1].subType == st.current
    requires forall t :: t != s[|s| - 1].subType ==> OfType(s, t) == OfType(s[..|s| - 1], t)
    ensures Complete(s, ScanState(st.options, st.current, st.run + [s[|s| - 1]]))
  {
  }

  /** An image of a sub_type not seen before starts a run and keeps the state complete. */
  lemma NewRunStep(s: seq<Image>, st: ScanState)
    requires |s| > 0 && Complete(s[..|s| - 1], st) && s[|s| - 1].subType != st.current
    requires forall t :: t != s[|s| - 1].subType ==> OfType(s, t) == OfType(s[..|s| - 1], t)
    requires OfType(s[..|s| - 1], s[|s| - 1].subType) == []
    ensures Complete(s, ScanState(st.options[st.current := st.run], s[|s| - 1].subType, [s[|s| - 1]]))
  {
    var img := s[|s| - 1];
    assert OfType(s, img.subType) == [img];
    NewRunStored(s, st);
    NewRunPresent(s, st);
  }

  /** Storing the finished run keeps every stored sub_type's images complete. */
  lemma NewRunStored(s: seq<Image>, st: ScanState)
    requires |s| > 0 && Complete(s[..|s| - 1], st) && s[|s| - 1].subType != st.current
    requires forall t :: t != s[|s| - 1].subType ==> OfType(s, t) == OfType(s[..|s| - 1], t)
    requires OfType(s[..|s| - 1], s[|s| - 1].subType) == []
    ensures var options := st.options[st.current := st.run];
            forall t :: t in options && t != "" ==> options[t] == OfType(s, t)
  {
    var front := s[..|s| - 1];
    var options := st.options[st.current := st.run];
    forall t | t in options && t != ""
      ensures options[t] == OfType(s, t)
    {
      if t == st.current {
        assert OfType(s, t) == OfType(front, t);
      } else {
        assert t in st.options && options[t] == st.options[t] == OfType(front, t);
        assert t != s[|s| - 1].subType;
      }
    }
  }

  /** After storing the finished run, the stored sub_types are exactly those seen. */
  lemma NewRunPresent(s: seq<Image>, st: ScanState)
    requires |s| > 0 && Complete(s[..|s| - 1], st) && s[|s| - 1].subType != st.current
    requires forall t :: t != s[|s| - 1].subType ==> OfType(s, t) == OfType(s[..|s| - 1], t)
    ensures var options := st.options[st.current := st.run];
            forall t :: t != "" && t != s[|s| - 1].subType ==> (t in options <==> OfType(s, t) != [])
  {
  }

  /** Dropping the last image keeps equal sub_types adjacent. */
  lemma ContiguousPrefix(s: seq<Image>)
    requires Contiguous(s) && |s| > 0
    ensures Contiguous(s[..|s| - 1])
  {
    var front := s[..|s| - 1];
    forall i, j, k | 0 <= i < j < k < |front| && front[i].subType == front[k].subType
      ensures front[j].subType == front[i].subType
    {
      assert s[i] == front[i] && s[j] == front[j] && s[k] == front[k];
    }
  }

  /** When the last image starts a new run, its sub_type appears nowhere before it. */
  lemma NewTypeAbsent(s: seq<Image>)
    requires Contiguous(s) && |s| >= 2 && s[|s| - 2].subType != s[|s| - 1].subType
    ensures forall i :: 0 <= i < |s| - 1 ==> s[i].subType != s[|s| - 1].subType
  {
  }

  /** After a non-empty input the current sub_type is the last image's. */
  lemma LastSubType(s: seq<Image>)
    requires |s| > 0
    ensures Scan(s).current == s[|s| - 1].subType
  {
  }

  /**
   * On input ordered by sub_type the result has one key per non-empty
   * sub_type present, each holding that sub_type's images in input order.
   */
  lemma AvailableImagesGroups(images: seq<Image>, t: string)
    requires Contiguous(images)
    ensures t in AvailableImages(images) <==> t != "" && exists i :: 0 <= i < |images| && images[i].subType == t
    ensures t in AvailableImages(images) ==> AvailableImages(images)[t] == OfType(images, t)
  {
    ScanInvariant(images);
    OfTypeEmpty(images, t);
  }

  /** No image, no key. */
  lemma NoImagesNoOptions()
    ensures AvailableImages([]) == map[]
  {
  }

  /** A sub_type split into two runs keeps only its last run. */
  lemma SplitRunKeepsLast()
    ensures AvailableImages([Image(1, "x"), Image(2, "y"), Image(3, "x")])["x"] == [Image(3, "x")]
  {
    var s := [Image(1, "x"), Image(2, "y"), Image(3, "x")];
    assert s[..2] == [Image(1, "x"), Image(2, "y")];
    assert s[..2][..1] == [Image(1, "x")];
    assert s[..2][..1][..0] == [];
  }
}
