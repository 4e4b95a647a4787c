/**
 * The collage editor: uploading at most four images, the slots built from the uploaded list,
 * swapping the images of two slots by drag and drop, removing an image, the rectangle each
 * slot covers on the canvas, and starting over. Image ids come from `Math.random` and object
 * URLs from the browser; both are parameters. Canvas measurements are reals.
 */
module ImageCollage {
  import opened Wrappers
  import opened Text
  import opened Seqs

  /** A file the browser hands over: its name and its MIME type. */
  datatype File = File(name: string, mime: string)

  datatype ImageFile = ImageFile(id: string, file: File, url: string, name: string)

  datatype Slot = Slot(id: string, image: Option<ImageFile>, position: nat)

  // ----- Uploading -----

  /** `slice(0, 4)`. */
  function FirstFour<T>(s: seq<T>): (r: seq<T>)
    ensures |r| <= 4 && r <= s
    ensures |s| <= 4 ==> r == s
  {
    if |s| <= 4 then s else s[..4]
  }

  predicate IsImage(f: File) {
    StartsWith(f.mime, "image/")
  }

  /** The files of a batch that become images: the image files among its first four. */
  function Accepted(files: seq<File>): (r: seq<File>)
    ensures |r| <= 4
    ensures forall k :: 0 <= k < |r| ==> r[k] in FirstFour(files) && IsImage(r[k])
    ensures IsSubsequence(r, FirstFour(files))
  {
    FilterIsSubsequence(FirstFour(files), IsImage);
    var r := Filter(FirstFour(files), IsImage);
    assert forall k :: 0 <= k < |r| ==> r[k] in r;
    r
  }

  /** The images made from the accepted files, the `j`-th drawing the `j`-th random id. */
  function Added(accepted: seq<File>, idFor: nat -> string, urlFor: File -> string): (r: seq<ImageFile>)
    ensures |r| == |accepted|
    ensures forall j :: 0 <= j < |r| ==> r[j].file == accepted[j] && r[j].id == idFor(j) && r[j].name == accepted[j].name
  {
    seq(|accepted|, j requires 0 <= j < |accepted| => ImageFile(idFor(j), accepted[j], urlFor(accepted[j]), accepted[j].name))
  }

  /** One more accepted file adds one image, drawing the next id. */
  lemma AddedSnoc(accepted: seq<File>, f: File, idFor: nat -> string, urlFor: File -> string)
    ensures Added(accepted + [f], idFor, urlFor) == Added(accepted, idFor, urlFor) + [ImageFile(idFor(|accepted|), f, urlFor(f), f.name)]
  {
  }

  /** `handleFileUpload(files)`: nothing happens without a file list; otherwise the new images are appended and the list is cut to four. */
  method HandleFileUpload(prev: seq<ImageFile>, files: Option<seq<File>>, idFor: nat -> string, urlFor: File -> string)
    returns (images: seq<ImageFile>)
    ensures files.None? ==> images == prev
    ensures files.Some? ==> images == FirstFour(prev + Added(Accepted(files.value), idFor, urlFor))
  {
    if files.None? {
      return prev;
    }
    var batch := FirstFour(files.value);
    var newImages: seq<ImageFile> := [];
    for i := 0 to |batch|
      invariant newImages == Added(Filter(batch[..i], IsImage), idFor, urlFor)
    {
      var file := batch[i];
      ghost var before := Filter(batch[..i], IsImage);
      assert batch[..i + 1] == batch[..i] + [file];
      FilterConcat(batch[..i], [file], IsImage);
      if IsImage(file) {
        assert Filter([file], IsImage) == [file];
        AddedSnoc(before, file, idFor, urlFor);
        var image := ImageFile(idFor(|newImages|), file, urlFor(file), file.name);
        newImages := newImages + [image];
      } else {
        assert Filter([file], IsImage) == [];
      }
      assert Filter(batch[..i + 1], IsImage) == before + Filter([file], IsImage);
    }
    assert batch[..|batch|] == batch;
    images := FirstFour(prev + newImages);
  }

  /** An upload keeps the list at four images or fewer, keeps the earlier images in front, and adds only accepted image files, in order. */
  lemma UploadShape(prev: seq<ImageFile>, files: seq<File>, idFor: nat -> string, urlFor: File -> string)
    requires |prev| <= 4
    ensures var images := FirstFour(prev + Added(Accepted(files), idFor, urlFor));
      && |images| <= 4
      && prev <= images
      && |images| == (if |prev| + |Accepted(files)| <= 4 then |prev| + |Accepted(files)| else 4)
      && forall k :: |prev| <= k < |images| ==> images[k].file == Accepted(files)[k - |prev|] && IsImage(images[k].file)
  {
    var all := prev + Added(Accepted(files), idFor, urlFor);
    assert prev <= all;
  }

  /** A full list takes no more images. */
  lemma FullListUnchanged(prev: seq<ImageFile>, files: seq<File>, idFor: nat -> string, urlFor: File -> string)
    requires |prev| == 4
    ensures FirstFour(prev + Added(Accepted(files), idFor, urlFor)) == prev
  {
    assert (prev + Added(Accepted(files), idFor, urlFor))[..4] == prev;
  }

  // ----- Slots -----

  /** The id of the `i`-th slot: `slot-${index}`. */
  function SlotId(i: nat): string {
    "slot-" + DecimalString(i)
  }

  /** Different slots have different ids. */
  lemma SlotIdsDistinct(i: nat, j: nat)
    requires i != j
    ensures SlotId(i) != SlotId(j)
  {
    if SlotId(i) == SlotId(j) {
      assert DecimalString(i) == SlotId(i)[5..];
      assert DecimalString(j) == SlotId(j)[5..];
      DecimalRoundTrip(i);
      DecimalRoundTrip(j);
    }
  }

  /** The slots the effect sets when the uploaded list changes: one per image for one to four images, none for none; a longer list would leave the slots as they were. */
  function SlotsFor(images: seq<ImageFile>, prev: seq<Slot>): (r: seq<Slot>)
    ensures 1 <= |images| <= 4 ==> |r| == |images| && forall i :: 0 <= i < |r| ==> r[i] == Slot(SlotId(i), Some(images[i]), i)
    ensures |images| == 0 ==> r == []
    ensures |images| > 4 ==> r == prev
  {
    if 0 < |images| <= 4 then seq(|images|, i requires 0 <= i < |images| => Slot(SlotId(i), Some(images[i]), i))
    else if |images| == 0 then []
    else prev
  }

  /** No two slots share an id. */
  predicate DistinctIds(slots: seq<Slot>) {
    forall i, j :: 0 <= i < j < |slots| ==> slots[i].id != slots[j].id
  }

  /** `slot.image?.id === imageId`. */
  predicate Holds(slot: Slot, imageId: string) {
    slot.image.Some? && slot.image.value.id == imageId
  }

  /** No two slots hold images with the same id. */
  predicate DistinctImages(slots: seq<Slot>) {
    forall i, j :: 0 <= i < j < |slots| && slots[i].image.Some? && slots[j].image.Some? ==>
      slots[i].image.value.id != slots[j].image.value.id
  }

  /** Slots built from a list whose ids are distinct satisfy both distinctness conditions. */
  lemma BuiltSlotsDistinct(images: seq<ImageFile>, prev: seq<Slot>)
    requires 1 <= |images| <= 4
    requires forall i, j :: 0 <= i < j < |images| ==> images[i].id != images[j].id
    ensures DistinctIds(SlotsFor(images, prev)) && DistinctImages(SlotsFor(images, prev))
  {
    var slots := SlotsFor(images, prev);
    forall i, j | 0 <= i < j < |slots|
      ensures slots[i].id != slots[j].id
    {
      SlotIdsDistinct(i, j);
    }
  }

  // ----- Drag and drop -----

  /** The slots and the image being dragged. */
  datatype Board = Board(slots: seq<Slot>, dragged: Option<ImageFile>)

  /** `handleDragStart`: the image becomes the dragged one. */
  function DragStart(b: Board, image: ImageFile): (r: Board)
    ensures r.slots == b.slots && r.dragged == Some(image)
  {
    b.(dragged := Some(image))
  }

  /** One slot under the drop's `map`: the target takes the dragged image, the slot holding it takes the target's. */
  function Moved(slot: Slot, slotId: string, dragged: ImageFile, targetImage: Option<ImageFile>): Slot {
    if slot.id == slotId then slot.(image := Some(dragged))
    else if Holds(slot, dragged.id) then slot.(image := targetImage)
    else slot
  }

  /** `handleDrop(slotId)`: with a dragged image, a target slot and a slot holding that image, every slot is mapped; the dragged image is cleared in any case. */
  function Drop(b: Board, slotId: string): (r: Board)
    ensures b.dragged.None? ==> r == b
    ensures r.dragged == None && |r.slots| == |b.slots|
    ensures forall k :: 0 <= k < |r.slots| ==> r.slots[k].id == b.slots[k].id && r.slots[k].position == b.slots[k].position
    ensures (forall k :: 0 <= k < |b.slots| ==> b.slots[k].id != slotId) ==> r.slots == b.slots
    ensures b.dragged.Some? && (forall k :: 0 <= k < |b.slots| ==> !Holds(b.slots[k], b.dragged.value.id)) ==> r.slots == b.slots
  {
    if b.dragged.None? then b
    else
      var d := b.dragged.value;
      var t := FirstIndex(b.slots, (s: Slot) => s.id == slotId);
      var s := FirstIndex(b.slots, (s: Slot) => Holds(s, d.id));
      if t >= 0 && s >= 0 then
        var targetImage := b.slots[t].image;
        Board(seq(|b.slots|, k requires 0 <= k < |b.slots| => Moved(b.slots[k], slotId, d, targetImage)), None)
      else b.(dragged := None)
  }

  /** The two slots `i` and `j` with their images exchanged. */
  function SwapImages(slots: seq<Slot>, i: nat, j: nat): (r: seq<Slot>)
    requires i < |slots| && j < |slots|
    ensures |r| == |slots|
    ensures r[i].image == slots[j].image && r[j].image == slots[i].image
    ensures forall k :: 0 <= k < |slots| ==> r[k].id == slots[k].id && r[k].position == slots[k].position
    ensures forall k :: 0 <= k < |slots| && k != i && k != j ==> r[k] == slots[k]
  {
    seq(|slots|, k requires 0 <= k < |slots| =>
      if k == i then slots[k].(image := slots[j].image)
      else if k == j then slots[k].(image := slots[i].image)
      else slots[k])
  }

  function Images(slots: seq<Slot>): (r: seq<Option<ImageFile>>)
    ensures |r| == |slots| && forall k :: 0 <= k < |r| ==> r[k] == slots[k].image
  {
    seq(|slots|, k requires 0 <= k < |slots| => slots[k].image)
  }

  /** Exchanging two slots' images rearranges the images and nothing else. */
  lemma SwapPermutes(slots: seq<Slot>, i: nat, j: nat)
    requires i < |slots| && j < |slots|
    ensures multiset(Images(SwapImages(slots, i, j))) == multiset(Images(slots))
    ensures forall k :: 0 <= k < |slots| ==> SwapImages(slots, i, j)[k].id == slots[k].id
  {
    var a := Images(slots);
    if i != j {
      assert Images(SwapImages(slots, i, j)) == a[i := a[j]][j := a[i]];
    } else {
      assert Images(SwapImages(slots, i, j)) == a;
    }
  }

  /** Dragging the image of slot `s` onto slot `t` exchanges the two slots' images and leaves every other slot as it was. */
  lemma DragAndDropSwaps(slots: seq<Slot>, s: nat, t: nat)
    requires DistinctIds(slots) && DistinctImages(slots)
    requires s < |slots| && t < |slots| && slots[s].image.Some?
    ensures var r := Drop(DragStart(Board(slots, None), slots[s].image.value), slots[t].id);
      r.slots == SwapImages(slots, t, s) && r.dragged == None
    ensures multiset(Images(Drop(DragStart(Board(slots, None), slots[s].image.value), slots[t].id).slots)) == multiset(Images(slots))
  {
    var d := slots[s].image.value;
    var b := DragStart(Board(slots, None), d);
    var slotId := slots[t].id;
    var ti := FirstIndex(slots, (x: Slot) => x.id == slotId);
    var si := FirstIndex(slots, (x: Slot) => Holds(x, d.id));
    assert ti == t;
    assert si == s;
    var r := Drop(b, slotId);
    forall k | 0 <= k < |slots|
      ensures r.slots[k] == SwapImages(slots, t, s)[k]
    {
      assert r.slots[k] == Moved(slots[k], slotId, d, slots[t].image);
    }
    SwapPermutes(slots, t, s);
  }

  // ----- Removing and starting over -----

  /** `removeImage(imageId)`. */
  function RemoveImage(images: seq<ImageFile>, imageId: string): (r: seq<ImageFile>)
    ensures forall x :: x in r <==> x in images && x.id != imageId
    ensures IsSubsequence(r, images)
  {
    FilterIsSubsequence(images, (img: ImageFile) => img.id != imageId);
    Filter(images, (img: ImageFile) => img.id != imageId)
  }

  /** Removing an id no image has changes nothing; removing never lengthens the list, so it stays within four images. */
  lemma RemoveAbsentId(images: seq<ImageFile>, imageId: string)
    ensures (forall k :: 0 <= k < |images| ==> images[k].id != imageId) ==> RemoveImage(images, imageId) == images
    ensures |RemoveImage(images, imageId)| <= |images|
  {
    if forall k :: 0 <= k < |images| ==> images[k].id != imageId {
      FilterAll(images, (img: ImageFile) => img.id != imageId);
    }
  }

  /** The page state `resetAll` clears. */
  datatype Page = Page(images: seq<ImageFile>, board: Board)

  /** `resetAll()`: no images, no slots and nothing dragged. */
  function ResetAll(p: Page): (r: Page)
    ensures r.images == [] && r.board.slots == [] && r.board.dragged == None
    ensures SlotsFor(r.images, p.board.slots) == r.board.slots
  {
    Page([], Board([], None))
  }

  // ----- Slot geometry -----

  datatype Rect = Rect(width: real, height: real, left: real, top: real)

  /** `getSlotStyle(position, totalImages)` on a canvas of `w` by `h`: one full image; two halves side by side; two quarters above a full-width half; a two-by-two grid; anything else an empty rectangle. */
  function SlotStyle(position: nat, total: int, w: real, h: real): (r: Rect)
    ensures total == 4 ==> r == Rect(w / 2.0, h / 2.0, (position % 2) as real * (w / 2.0), (position / 2) as real * (h / 2.0))
    ensures !(1 <= total <= 4) ==> r == Rect(0.0, 0.0, 0.0, 0.0)
  {
    if total == 1 then Rect(w, h, 0.0, 0.0)
    else if total == 2 then Rect(w / 2.0, h, position as real * (w / 2.0), 0.0)
    else if total == 3 then
      if position < 2 then Rect(w / 2.0, h / 2.0, position as real * (w / 2.0), 0.0)
      else Rect(w, h / 2.0, 0.0, h / 2.0)
    else if total == 4 then
      var row := position / 2;
      var col := position % 2;
      Rect(w / 2.0, h / 2.0, col as real * (w / 2.0), row as real * (h / 2.0))
    else Rect(0.0, 0.0, 0.0, 0.0)
  }

  predicate Inside(r: Rect, w: real, h: real) {
    0.0 <= r.width && 0.0 <= r.height && 0.0 <= r.left && 0.0 <= r.top && r.left + r.width <= w && r.top + r.height <= h
  }

  /** The two rectangles share no interior point. */
  predicate Disjoint(a: Rect, b: Rect) {
    a.left + a.width <= b.left || b.left + b.width <= a.left || a.top + a.height <= b.top || b.top + b.height <= a.top
  }

  /** The area of the first `k` of the `n` slots. */
  function CoveredArea(k: nat, n: int, w: real, h: real): real {
    if k == 0 then 0.0 else CoveredArea(k - 1, n, w, h) + SlotStyle(k - 1, n, w, h).width * SlotStyle(k - 1, n, w, h).height
  }

  /** Each of the `n` slots lies within the canvas. */
  lemma SlotInsideCanvas(position: nat, n: int, w: real, h: real)
    requires 1 <= n <= 4 && position < n && 0.0 <= w && 0.0 <= h
    ensures Inside(SlotStyle(position, n, w, h), w, h)
  {
    if n == 4 {
      assert position / 2 <= 1 && position % 2 <= 1;
    }
  }

  /** For one to four images no two slots overlap. */
  lemma SlotsDisjoint(n: int, w: real, h: real)
    requires 1 <= n <= 4 && 0.0 <= w && 0.0 <= h
    ensures forall p: nat, q: nat :: p < q < n ==> Disjoint(SlotStyle(p, n, w, h), SlotStyle(q, n, w, h))
  {
    forall p: nat, q: nat | p < q < n
      ensures Disjoint(SlotStyle(p, n, w, h), SlotStyle(q, n, w, h))
    {
      if n == 4 {
        assert p / 2 <= 1 && p % 2 <= 1 && q / 2 <= 1 && q % 2 <= 1;
      }
    }
  }

  /** The halving arithmetic the area sums rest on. */
  lemma HalvesAdd(w: real, h: real)
    ensures (w / 2.0) * h + (w / 2.0) * h == w * h
    ensures (w / 2.0) * (h / 2.0) + (w / 2.0) * (h / 2.0) == (w / 2.0) * h
    ensures (w / 2.0) * h == w * (h / 2.0)
  {
  }

  /** The two slots' areas add up to the canvas's. */
  lemma CoverTwo(w: real, h: real)
    ensures CoveredArea(2, 2, w, h) == w * h
  {
    assert CoveredArea(1, 2, w, h) == (w / 2.0) * h;
    HalvesAdd(w, h);
  }

  /** The three slots' areas add up to the canvas's. */
  lemma CoverThree(w: real, h: real)
    ensures CoveredArea(3, 3, w, h) == w * h
  {
    var quarter := (w / 2.0) * (h / 2.0);
    assert CoveredArea(1, 3, w, h) == quarter;
    assert CoveredArea(2, 3, w, h) == quarter + quarter;
    assert CoveredArea(3, 3, w, h) == quarter + quarter + w * (h / 2.0);
    HalvesAdd(w, h);
  }

  /** The four slots' areas add up to the canvas's. */
  lemma CoverFour(w: real, h: real)
    ensures CoveredArea(4, 4, w, h) == w * h
  {
    var quarter := (w / 2.0) * (h / 2.0);
    assert CoveredArea(1, 4, w, h) == quarter;
    assert CoveredArea(2, 4, w, h) == quarter + quarter;
    assert CoveredArea(3, 4, w, h) == quarter + quarter + quarter by {
      assert SlotStyle(2, 4, w, h).width == w / 2.0 && SlotStyle(2, 4, w, h).height == h / 2.0;
    }
    assert CoveredArea(4, 4, w, h) == quarter + quarter + quarter + quarter by {
      assert SlotStyle(3, 4, w, h).width == w / 2.0 && SlotStyle(3, 4, w, h).height == h / 2.0;
    }
    HalvesAdd(w, h);
  }

  /** For one to four images the slots together cover the canvas's area; with no overlap and every slot inside, they tile it. */
  lemma SlotsCoverCanvas(n: int, w: real, h: real)
    requires 1 <= n <= 4
    ensures CoveredArea(n as nat, n, w, h) == w * h
  {
    if n == 1 {
      assert CoveredArea(1, n, w, h) == w * h;
    } else if n == 2 {
      CoverTwo(w, h);
    } else if n == 3 {
      CoverThree(w, h);
    } else {
      CoverFour(w, h);
    }
  }
}
