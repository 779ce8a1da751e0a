/** Delta-encoded preview animations (cmd/previewgen: capture.go, render.go, fixtures.go).

    The encoder merges equal frames and stores, for each frame, only the rectangle that changed; the
    decoder draws each partial frame over one canvas and leaves it in place. A stored delay has 16 bits
    (section 23 of the GIF89a specification), and a loop count is stored only with more than one image;
    the rest of the file format is lossless. */
module AnimationCodec {

  datatype Option<T> = None | Some(value: T)

  const WIDTH: nat := 72
  const HEIGHT: nat := 16
  const UINT16 := 0x1_0000

  datatype Color = Color(r: nat, g: nat, b: nat, a: nat)

  /** Rows of pixels. */
  type Image = seq<seq<Color>>

  predicate Canvas(i: Image) { |i| == HEIGHT && forall y :: 0 <= y < HEIGHT ==> |i[y]| == WIDTH }

  datatype Frame = Frame(image: Image, delay: int)

  predicate ValidFrame(f: Frame) { Canvas(f.image) && f.delay > 0 }

  predicate ValidFrames(s: seq<Frame>) { forall k :: 0 <= k < |s| ==> ValidFrame(s[k]) }

  function TotalDelay(s: seq<Frame>): int { if s == [] then 0 else TotalDelay(s[..|s| - 1]) + s[|s| - 1].delay }

  // ---------------------------------------------------------------- merging equal frames

  function Append(s: seq<Frame>, f: Frame): seq<Frame> {
    if s != [] && s[|s| - 1].image == f.image then s[..|s| - 1] + [s[|s| - 1].(delay := s[|s| - 1].delay + f.delay)]
      else s + [f]
  }

  function Merge(s: seq<Frame>): seq<Frame> { if s == [] then [] else Append(Merge(s[..|s| - 1]), s[|s| - 1]) }

  ghost predicate NoRepeats(s: seq<Frame>) { forall k :: 0 < k < |s| ==> s[k - 1].image != s[k].image }

  /** What is on show t hundredths of a second into the animation. */
  function ImageAt(s: seq<Frame>, t: int): Option<Image> {
    if s == [] then None
    else if t >= TotalDelay(s[..|s| - 1]) then (if t < TotalDelay(s) then Some(s[|s| - 1].image) else None)
    else ImageAt(s[..|s| - 1], t)
  }

  lemma AppendIs(s: seq<Frame>, f: Frame, t: int)
    requires ValidFrames(s) && ValidFrame(f)
    ensures ValidFrames(Append(s, f)) && (NoRepeats(s) ==> NoRepeats(Append(s, f)))
    ensures TotalDelay(Append(s, f)) == TotalDelay(s) + f.delay
    ensures ImageAt(Append(s, f), t) == ImageAt(s + [f], t)
  {
    assert (s + [f])[..|s|] == s;
    if s != [] && s[|s| - 1].image == f.image {
      var n := |s| - 1;
      var merged := s[..n] + [s[n].(delay := s[n].delay + f.delay)];
      assert merged[..n] == s[..n];
      assert Append(s, f) == merged;
    }
  }

  lemma {:induction false} SameBefore(left: seq<Frame>, right: seq<Frame>, f: Frame, t: int)
    requires TotalDelay(left) == TotalDelay(right) && ImageAt(left, t) == ImageAt(right, t)
    ensures ImageAt(left + [f], t) == ImageAt(right + [f], t)
  {
    assert (left + [f])[..|left|] == left && (right + [f])[..|right|] == right;
  }

  /** Merging keeps the total delay and what is on show at every moment, and leaves no two equal
      neighbours. */
  lemma {:induction false} MergeShowsTheSame(s: seq<Frame>, t: int)
    requires ValidFrames(s)
    ensures ValidFrames(Merge(s)) && NoRepeats(Merge(s)) && TotalDelay(Merge(s)) == TotalDelay(s)
    ensures ImageAt(Merge(s), t) == ImageAt(s, t) && (s != [] ==> Merge(s) != [])
  {
    hide ImageAt;
    hide Canvas;
    if s != [] {
      var n := |s| - 1;
      MergeShowsTheSame(s[..n], t);
      AppendIs(Merge(s[..n]), s[n], t);
      SameBefore(Merge(s[..n]), s[..n], s[n], t);
      assert s[..n] + [s[n]] == s;
      hide NoRepeats;
    }
  }

  lemma MergeNone()
    ensures Merge([]) == []
  {
  }

  lemma MergeNext(s: seq<Frame>, k: nat)
    requires k < |s|
    ensures Merge(s[..k + 1]) == Append(Merge(s[..k]), s[k])
  {
    assert s[..k + 1][..k] == s[..k];
  }

  method CoalesceFrames(source: seq<Frame>) returns (r: Option<seq<Frame>>)
    ensures r == if source != [] && ValidFrames(source) then Some(Merge(source)) else None
  {
    hide Canvas;
    hide Merge;
    if source == [] { return None; }
    MergeNone();
    var result: seq<Frame> := [];
    for k := 0 to |source|
      invariant ValidFrames(source[..k]) && result == Merge(source[..k])
    {
      var current := source[k];
      MergeNext(source, k);
      if !Canvas(current.image) || current.delay <= 0 {
        assert !ValidFrame(source[k]);
        return None;
      }
      var last := |result| - 1;
      if last >= 0 && result[last].image == current.image {
        result := result[..last] + [result[last].(delay := result[last].delay + current.delay)];
      } else {
        result := result + [current];
      }
    }
    assert source[..|source|] == source;
    return Some(result);
  }

  // ---------------------------------------------------------------- changed rectangle

  /** Half-open: x0 <= x < x1, y0 <= y < y1. */
  datatype Rect = Rect(x0: int, y0: int, x1: int, y1: int)

  const NOTHING := Rect(0, 0, 0, 0)
  const WHOLE := Rect(0, 0, WIDTH, HEIGHT)

  predicate Empty(r: Rect) { r.x0 >= r.x1 || r.y0 >= r.y1 }

  predicate In(r: Rect, x: int, y: int) { r.x0 <= x < r.x1 && r.y0 <= y < r.y1 }

  predicate Changed(p: Image, c: Image, x: int, y: int)
    requires Canvas(p) && Canvas(c)
  {
    0 <= x < WIDTH && 0 <= y < HEIGHT && p[y][x] != c[y][x]
  }

  function Least(a: int, b: int): int { if a < b then a else b }

  function Greatest(a: int, b: int): int { if a < b then b else a }

  function Include(r: Rect, x: int, y: int): Rect {
    if Empty(r) then Rect(x, y, x + 1, y + 1)
    else Rect(Least(r.x0, x), Least(r.y0, y), Greatest(r.x1, x + 1), Greatest(r.y1, y + 1))
  }

  /** Point (x, y) comes before row j, or in row j before column i. */
  predicate Visited(x: int, y: int, i: int, j: int) { y < j || (y == j && x < i) }

  /** The least rectangle holding every changed point visited. */
  ghost predicate HullSoFar(p: Image, c: Image, r: Rect, i: int, j: int)
    requires Canvas(p) && Canvas(c)
  {
    && (Empty(r) ==> r == NOTHING) && 0 <= r.x0 && 0 <= r.y0 && r.x1 <= WIDTH && r.y1 <= HEIGHT
    && (forall x, y :: Changed(p, c, x, y) && Visited(x, y, i, j) ==> In(r, x, y))
    && (forall s: Rect :: (forall x, y :: Changed(p, c, x, y) && Visited(x, y, i, j) ==> In(s, x, y)) ==>
          Empty(r) || (s.x0 <= r.x0 && s.y0 <= r.y0 && r.x1 <= s.x1 && r.y1 <= s.y1))
  }

  /** The least rectangle outside which two frames agree. */
  ghost predicate LeastChanged(p: Image, c: Image, r: Rect)
    requires Canvas(p) && Canvas(c)
  {
    HullSoFar(p, c, r, 0, HEIGHT)
  }

  lemma VisitedNext(x: int, y: int, i: int, j: int)
    ensures Visited(x, y, i + 1, j) <==> Visited(x, y, i, j) || (x == i && y == j)
  {
  }

  lemma IncludeKeeps(p: Image, c: Image, r: Rect, i: int, j: int)
    requires Canvas(p) && Canvas(c) && 0 <= i < WIDTH && 0 <= j < HEIGHT && HullSoFar(p, c, r, i, j)
    ensures HullSoFar(p, c, if Changed(p, c, i, j) then Include(r, i, j) else r, i + 1, j)
  {
    forall x, y
      ensures Visited(x, y, i + 1, j) <==> Visited(x, y, i, j) || (x == i && y == j)
    {
      VisitedNext(x, y, i, j);
    }
    hide Visited;
    var t := if Changed(p, c, i, j) then Include(r, i, j) else r;
    forall s: Rect | forall x, y :: Changed(p, c, x, y) && Visited(x, y, i + 1, j) ==> In(s, x, y)
      ensures Empty(t) || (s.x0 <= t.x0 && s.y0 <= t.y0 && t.x1 <= s.x1 && t.y1 <= s.y1)
    {
      assert forall x, y :: Changed(p, c, x, y) && Visited(x, y, i, j) ==> In(s, x, y);
      assert Changed(p, c, i, j) ==> In(s, i, j) by { assert Visited(i, j, i + 1, j); }
    }
  }

  lemma NextRow(p: Image, c: Image, r: Rect, j: int)
    requires Canvas(p) && Canvas(c) && HullSoFar(p, c, r, WIDTH, j)
    ensures HullSoFar(p, c, r, 0, j + 1)
  {
    forall x, y
      ensures Changed(p, c, x, y) && Visited(x, y, 0, j + 1) <==> Changed(p, c, x, y) && Visited(x, y, WIDTH, j)
    {
    }
  }

  method ChangedBounds(p: Image, c: Image) returns (r: Rect)
    requires Canvas(p) && Canvas(c)
    ensures LeastChanged(p, c, r)
  {
    r := NOTHING;
    for j := 0 to HEIGHT
      invariant HullSoFar(p, c, r, 0, j)
    {
      for i := 0 to WIDTH
        invariant HullSoFar(p, c, r, i, j)
      {
        IncludeKeeps(p, c, r, i, j);
        if c[j][i] != p[j][i] { r := Include(r, i, j); }
      }
      NextRow(p, c, r, j);
    }
  }

  lemma EmptyIffEqual(p: Image, c: Image, r: Rect)
    requires Canvas(p) && Canvas(c) && LeastChanged(p, c, r)
    ensures Empty(r) <==> p == c
  {
    if Empty(r) {
      forall y | 0 <= y < HEIGHT ensures p[y] == c[y] {
        forall x | 0 <= x < WIDTH ensures p[y][x] == c[y][x] { assert !In(r, x, y); assert !Changed(p, c, x, y); }
      }
    } else {
      Touched(p, c, r);
    }
  }

  /** A rectangle that is not empty has a changed point in its first column. */
  lemma Touched(p: Image, c: Image, r: Rect)
    requires Canvas(p) && Canvas(c) && LeastChanged(p, c, r) && !Empty(r)
    ensures exists y :: Changed(p, c, r.x0, y)
  {
    var s := r.(x0 := r.x0 + 1);
    if forall y :: !Changed(p, c, r.x0, y) {
      forall x, y | Changed(p, c, x, y) && Visited(x, y, 0, HEIGHT) ensures In(s, x, y) { assert In(r, x, y); }
      assert false;
    }
  }

  // ---------------------------------------------------------------- palette

  function Square(x: int): nat { if x >= 0 then x * x else (-x) * (-x) }

  function Distance(c: Color, d: Color): nat {
    Square(c.r - d.r) + Square(c.g - d.g) + Square(c.b - d.b) + Square(c.a - d.a)
  }

  /** The first of the first n palette entries at the least distance. */
  function NearestOf(palette: seq<Color>, c: Color, n: nat): (k: nat)
    requires 0 < n <= |palette|
    ensures k < n
    ensures forall i :: 0 <= i < n ==> Distance(c, palette[k]) <= Distance(c, palette[i])
    ensures forall i :: 0 <= i < k ==> Distance(c, palette[k]) < Distance(c, palette[i])
  {
    if n == 1 then 0 else
    var best := NearestOf(palette, c, n - 1);
    if Distance(c, palette[n - 1]) < Distance(c, palette[best]) then n - 1 else best
  }

  function Nearest(palette: seq<Color>, c: Color): (k: nat)
    requires palette != []
    ensures k < |palette|
  {
    NearestOf(palette, c, |palette|)
  }

  function PaintedRow(palette: seq<Color>, row: seq<Color>): seq<Color>
    requires palette != []
  {
    seq(|row|, x requires 0 <= x < |row| => palette[Nearest(palette, row[x])])
  }

  /** An image as the palette shows it. */
  function Painted(palette: seq<Color>, i: Image): Image
    requires palette != []
  {
    seq(|i|, y requires 0 <= y < |i| => PaintedRow(palette, i[y]))
  }

  // ---------------------------------------------------------------- stored frames

  /** A stored frame: palette indices of one rectangle. */
  datatype Part = Part(bounds: Rect, pixels: seq<seq<nat>>, delay: int, leftInPlace: bool)

  /** A loop count of zero repeats for ever; the reader reports -1 when the file holds none. */
  datatype Animation = Animation(width: int, height: int, loopCount: int, parts: seq<Part>)

  predicate Inside(r: Rect) { 0 <= r.x0 <= r.x1 <= WIDTH && 0 <= r.y0 <= r.y1 <= HEIGHT }

  predicate ValidPart(part: Part, palette: seq<Color>) {
    && Inside(part.bounds) && |part.pixels| == part.bounds.y1 - part.bounds.y0
    && forall y :: 0 <= y < |part.pixels| ==>
         |part.pixels[y]| == part.bounds.x1 - part.bounds.x0 && forall x :: 0 <= x < |part.pixels[y]| ==>
           part.pixels[y][x] < |palette|
  }

  /** The rectangle's pixels are the image's nearest palette entries. */
  ghost predicate Shows(part: Part, i: Image, palette: seq<Color>)
    requires palette != [] && Canvas(i)
  {
    && ValidPart(part, palette)
    && forall x, y :: In(part.bounds, x, y) ==>
         part.pixels[y - part.bounds.y0][x - part.bounds.x0] == Nearest(palette, i[y][x])
  }

  /** Each frame is stored whole at first, then as the least rectangle that changed. */
  ghost predicate Encodes(parts: seq<Part>, frames: seq<Frame>, palette: seq<Color>)
    requires palette != [] && ValidFrames(frames)
  {
    && |parts| == |frames|
    && (forall k :: 0 <= k < |frames| ==>
         Shows(parts[k], frames[k].image, palette) && parts[k].delay == frames[k].delay && parts[k].leftInPlace)
    && (frames != [] ==> parts[0].bounds == WHOLE)
    && (forall k :: 0 < k < |frames| ==> LeastChanged(frames[k - 1].image, frames[k].image, parts[k].bounds))
  }

  /** Storing a delay keeps its low 16 bits. */
  function StoredParts(parts: seq<Part>): seq<Part> {
    seq(|parts|, k requires 0 <= k < |parts| => parts[k].(delay := parts[k].delay % UINT16))
  }

  /** What reading the file back gives: the loop count survives only beside a second image. */
  function Stored(a: Animation): Animation {
    Animation(a.width, a.height, if |a.parts| > 1 && a.loopCount >= 0 then a.loopCount else -1, StoredParts(a.parts))
  }

  /** The animation the encoder builds. */
  ghost predicate EncodesAll(a: Animation, frames: seq<Frame>, palette: seq<Color>)
    requires palette != [] && ValidFrames(frames)
  {
    a.width == WIDTH && a.height == HEIGHT && a.loopCount == 0 && Encodes(a.parts, frames, palette)
  }

  // ---------------------------------------------------------------- decoding

  function BlankRow(): seq<Color> { seq(WIDTH, x => Color(0, 0, 0, 0)) }

  function Blank(): Image { seq(HEIGHT, y => BlankRow()) }

  function DrawRow(row: seq<Color>, part: Part, palette: seq<Color>, y: int): seq<Color>
    requires ValidPart(part, palette) && |row| == WIDTH
  {
    seq(WIDTH, x requires 0 <= x < WIDTH =>
      if In(part.bounds, x, y) then palette[part.pixels[y - part.bounds.y0][x - part.bounds.x0]] else row[x])
  }

  function Draw(canvas: Image, part: Part, palette: seq<Color>): (r: Image)
    requires Canvas(canvas) && ValidPart(part, palette)
    ensures Canvas(r)
  {
    seq(HEIGHT, y requires 0 <= y < HEIGHT => DrawRow(canvas[y], part, palette, y))
  }

  predicate ValidParts(parts: seq<Part>, palette: seq<Color>) {
    forall k :: 0 <= k < |parts| ==> ValidPart(parts[k], palette)
  }

  /** The canvas once all parts are drawn, each left in place. */
  function DrawAll(parts: seq<Part>, palette: seq<Color>): (r: Image)
    requires ValidParts(parts, palette)
    ensures Canvas(r)
  {
    if parts == [] then Blank() else Draw(DrawAll(parts[..|parts| - 1], palette), parts[|parts| - 1], palette)
  }

  function Decoded(parts: seq<Part>, palette: seq<Color>): seq<Frame>
    requires ValidParts(parts, palette)
  {
    seq(|parts|, k requires 0 <= k < |parts| => Frame(DrawAll(parts[..k + 1], palette), parts[k].delay))
  }

  /** What the decoder refuses before and while it draws. */
  predicate Refused(a: Animation) {
    || a.width != WIDTH || a.height != HEIGHT || a.loopCount != 0 || a.parts == []
    || exists k :: 0 <= k < |a.parts| && (a.parts[k].delay <= 0 || !a.parts[k].leftInPlace)
  }

  function Decode(a: Animation, palette: seq<Color>): Option<seq<Frame>>
    requires ValidParts(a.parts, palette)
  {
    if Refused(a) then None else Some(Decoded(a.parts, palette))
  }

  function PaintedFrames(palette: seq<Color>, s: seq<Frame>): seq<Frame>
    requires palette != [] && ValidFrames(s)
  {
    seq(|s|, k requires 0 <= k < |s| => Frame(Painted(palette, s[k].image), s[k].delay))
  }

  /** Outside the stored rectangle the two frames agree. */
  lemma OutsideAgrees(p: Image, c: Image, r: Rect, x: int, y: int)
    requires Canvas(p) && Canvas(c) && LeastChanged(p, c, r) && 0 <= x < WIDTH && 0 <= y < HEIGHT && !In(r, x, y)
    ensures p[y][x] == c[y][x]
  {
    assert !(Changed(p, c, x, y) && Visited(x, y, 0, HEIGHT));
  }

  lemma DrawPixel(canvas: Image, p: Image, c: Image, part: Part, palette: seq<Color>, first: bool, x: int, y: int)
    requires palette != [] && Canvas(canvas) && Canvas(p) && Canvas(c) && Shows(part, c, palette)
    requires if first then part.bounds == WHOLE else canvas == Painted(palette, p) && LeastChanged(p, c, part.bounds)
    requires 0 <= x < WIDTH && 0 <= y < HEIGHT
    ensures Draw(canvas, part, palette)[y][x] == Painted(palette, c)[y][x]
  {
    hide Nearest;
    hide HullSoFar;
    if !In(part.bounds, x, y) {
      OutsideAgrees(p, c, part.bounds, x, y);
      assert canvas[y][x] == palette[Nearest(palette, p[y][x])];
    }
  }

  lemma DrawIsFrame(canvas: Image, p: Image, c: Image, part: Part, palette: seq<Color>, first: bool)
    requires palette != [] && Canvas(canvas) && Canvas(p) && Canvas(c) && Shows(part, c, palette)
    requires if first then part.bounds == WHOLE else canvas == Painted(palette, p) && LeastChanged(p, c, part.bounds)
    ensures Draw(canvas, part, palette) == Painted(palette, c)
  {
    var drawn, want := Draw(canvas, part, palette), Painted(palette, c);
    assert Canvas(want);
    hide Draw;
    hide Painted;
    hide Shows;
    hide LeastChanged;
    forall y | 0 <= y < HEIGHT ensures drawn[y] == want[y] {
      forall x | 0 <= x < WIDTH ensures drawn[y][x] == want[y][x] {
        DrawPixel(canvas, p, c, part, palette, first, x, y);
      }
    }
  }

  lemma StoredShows(parts: seq<Part>, frames: seq<Frame>, palette: seq<Color>)
    requires palette != [] && ValidFrames(frames) && Encodes(parts, frames, palette)
    ensures ValidParts(StoredParts(parts), palette)
    ensures forall k :: 0 <= k < |frames| ==>
      Shows(StoredParts(parts)[k], frames[k].image, palette) && StoredParts(parts)[k].delay == frames[k].delay % UINT16
    ensures forall k :: 0 <= k < |frames| ==>
      StoredParts(parts)[k].bounds == parts[k].bounds && StoredParts(parts)[k].leftInPlace
  {
    hide Nearest;
    hide HullSoFar;
    var s := StoredParts(parts);
    forall k | 0 <= k < |frames|
      ensures Shows(s[k], frames[k].image, palette) && s[k].delay == frames[k].delay % UINT16
    {
      assert Shows(parts[k], frames[k].image, palette);
    }
    assert forall k :: 0 <= k < |s| ==> Shows(s[k], frames[k].image, palette);
  }

  lemma {:induction false} CanvasIsFrame(parts: seq<Part>, frames: seq<Frame>, palette: seq<Color>, k: nat)
    requires palette != [] && ValidFrames(frames) && Encodes(parts, frames, palette) && k < |frames|
    ensures ValidParts(StoredParts(parts), palette)
    ensures DrawAll(StoredParts(parts)[..k + 1], palette) == Painted(palette, frames[k].image)
  {
    hide Shows;
    hide HullSoFar;
    hide Painted;
    hide Draw;
    hide ValidPart;
    hide Canvas;
    var s := StoredParts(parts);
    StoredShows(parts, frames, palette);
    assert ValidFrame(frames[k]) && (k > 0 ==> ValidFrame(frames[k - 1]));
    assert parts[k].delay == frames[k].delay && s[k].bounds == parts[k].bounds;
    assert s[..k + 1][..k] == s[..k];
    assert ValidParts(s[..k], palette) && ValidParts(s[..k + 1], palette);
    if k > 0 {
      CanvasIsFrame(parts, frames, palette, k - 1);
      DrawIsFrame(DrawAll(s[..k], palette), frames[k - 1].image, frames[k].image, s[k], palette, false);
    } else {
      DrawIsFrame(DrawAll(s[..k], palette), frames[0].image, frames[0].image, s[0], palette, true);
    }
  }

  /** Decoding what was stored gives back the frames one for one, each pixel through the palette, exactly
      when there is more than one of them and every delay fits in 16 bits. */
  lemma DecodeInvertsEncode(a: Animation, frames: seq<Frame>, palette: seq<Color>)
    requires palette != [] && frames != [] && ValidFrames(frames) && EncodesAll(a, frames, palette)
    ensures ValidParts(Stored(a).parts, palette)
    ensures Decode(Stored(a), palette) == Some(PaintedFrames(palette, frames)) <==>
      |frames| > 1 && forall k :: 0 <= k < |frames| ==> frames[k].delay < UINT16
  {
    hide Shows;
    hide HullSoFar;
    hide Painted;
    hide DrawAll;
    hide ValidPart;
    hide Canvas;
    var parts := a.parts;
    var s := StoredParts(parts);
    StoredShows(parts, frames, palette);
    forall k | 0 <= k < |frames|
      ensures ValidParts(s[..k + 1], palette) && DrawAll(s[..k + 1], palette) == Painted(palette, frames[k].image)
    {
      CanvasIsFrame(parts, frames, palette, k);
    }
    hide Encodes;
    assert forall k :: 0 <= k < |frames| ==> ValidFrame(frames[k]);
    if forall k :: 0 <= k < |frames| ==> frames[k].delay < UINT16 {
      assert Decoded(s, palette) == PaintedFrames(palette, frames);
    } else {
      var k :| 0 <= k < |frames| && frames[k].delay >= UINT16;
      assert PaintedFrames(palette, frames)[k].delay == frames[k].delay;
      assert Decoded(s, palette)[k].delay == s[k].delay;
    }
  }

  /** A still is refused whatever its delay, because its file holds no loop count. */
  lemma StillIsRefused(a: Animation, frames: seq<Frame>, palette: seq<Color>)
    requires palette != [] && ValidFrames(frames) && EncodesAll(a, frames, palette) && |frames| == 1
    ensures ValidParts(Stored(a).parts, palette) && Decode(Stored(a), palette) == None
  {
    StoredShows(a.parts, frames, palette);
  }

  predicate Still(s: seq<Frame>) { forall i :: 0 <= i < |s| ==> s[i].image == s[0].image }

  /** A source merges to one frame exactly when it is a still. */
  lemma {:induction false} StillMergesToOne(s: seq<Frame>)
    requires s != []
    ensures Merge(s) != [] && Merge(s)[|Merge(s)| - 1].image == s[|s| - 1].image && Merge(s)[0].image == s[0].image
    ensures |Merge(s)| == 1 <==> Still(s)
  {
    hide Merge;
    var n := |s| - 1;
    MergeNext(s, n);
    assert s[..n + 1] == s;
    if n == 0 {
      MergeNone();
      assert s[..0] == [];
    } else {
      StillMergesToOne(s[..n]);
      StillExtends(s, n);
      AppendEnds(Merge(s[..n]), s[n]);
      hide Still;
    }
  }

  lemma AppendEnds(m: seq<Frame>, f: Frame)
    requires m != []
    ensures var r := Append(m, f); r != [] && r[|r| - 1].image == f.image && r[0].image == m[0].image
    ensures |Append(m, f)| == 1 <==> |m| == 1 && m[0].image == f.image
  {
  }

  lemma StillExtends(s: seq<Frame>, n: nat)
    requires n == |s| - 1 && n > 0
    ensures Still(s) <==> Still(s[..n]) && s[n].image == s[0].image
  {
    assert forall i :: 0 <= i < n ==> s[..n][i] == s[i];
  }

  /** So a capture in which the screen never changes, however often it is taken, cannot be read back. */
  lemma StillCaptureIsRefused(source: seq<Frame>, a: Animation, palette: seq<Color>)
    requires palette != [] && source != [] && Still(source)
    requires ValidFrames(Merge(source)) && EncodesAll(a, Merge(source), palette)
    ensures ValidParts(Stored(a).parts, palette) && Decode(Stored(a), palette) == None
  {
    StillMergesToOne(source);
    StillIsRefused(a, Merge(source), palette);
  }

  /** For one, two captures of a blank screen. */
  lemma BlankCaptureExample(palette: seq<Color>, a: Animation)
    requires palette != []
    requires var source := [Frame(Blank(), 10), Frame(Blank(), 10)];
      ValidFrames(Merge(source)) && EncodesAll(a, Merge(source), palette)
    ensures ValidParts(Stored(a).parts, palette) && Decode(Stored(a), palette) == None
  {
    var source := [Frame(Blank(), 10), Frame(Blank(), 10)];
    StillCaptureIsRefused(source, a, palette);
  }

  /** The whole path: what the decoded animation shows at any moment is what the source showed, through
      the palette, and the total delay is the same. */
  lemma PreviewShowsTheSource(source: seq<Frame>, a: Animation, palette: seq<Color>, t: int)
    requires palette != [] && source != [] && ValidFrames(source) && !Still(source)
    requires ValidFrames(Merge(source)) && EncodesAll(a, Merge(source), palette)
    requires forall k :: 0 <= k < |Merge(source)| ==> Merge(source)[k].delay < UINT16
    ensures ValidParts(Stored(a).parts, palette) && Decode(Stored(a), palette).Some?
    ensures
      var decoded := Decode(Stored(a), palette).value;
      && TotalDelay(decoded) == TotalDelay(source)
      && ImageAt(decoded, t) == match ImageAt(source, t) case None => None case Some(i) => Some(Painted(palette, i))
  {
    hide EncodesAll;
    hide Painted;
    StillMergesToOne(source);
    MergeShowsTheSame(source, t);
    DecodeInvertsEncode(a, Merge(source), palette);
    PaintedAt(palette, Merge(source), t);
  }

  lemma {:induction false} PaintedAt(palette: seq<Color>, s: seq<Frame>, t: int)
    requires palette != [] && ValidFrames(s)
    ensures TotalDelay(PaintedFrames(palette, s)) == TotalDelay(s)
    ensures ImageAt(PaintedFrames(palette, s), t) == match ImageAt(s, t) case None => None case Some(i) =>
      Some(Painted(palette, i))
  {
    hide Painted;
    if s != [] {
      var n := |s| - 1;
      PaintedAt(palette, s[..n], t);
      assert PaintedFrames(palette, s)[..n] == PaintedFrames(palette, s[..n]);
    }
  }

  // ---------------------------------------------------------------- the encoder and decoder loops

  method StoreRect(i: Image, bounds: Rect, delay: int, palette: seq<Color>) returns (part: Part)
    requires palette != [] && Canvas(i) && Inside(bounds)
    ensures Shows(part, i, palette) && part.bounds == bounds && part.delay == delay && part.leftInPlace
  {
    var rows: seq<seq<nat>> := [];
    for y := bounds.y0 to bounds.y1
      invariant |rows| == y - bounds.y0
      invariant forall j :: 0 <= j < |rows| ==> |rows[j]| == bounds.x1 - bounds.x0
      invariant forall j, x :: 0 <= j < |rows| && 0 <= x < |rows[j]| ==>
        rows[j][x] == Nearest(palette, i[j + bounds.y0][x + bounds.x0])
    {
      var row: seq<nat> := [];
      for x := bounds.x0 to bounds.x1
        invariant |row| == x - bounds.x0
        invariant forall j :: 0 <= j < |row| ==> row[j] == Nearest(palette, i[y][j + bounds.x0])
      {
        row := row + [Nearest(palette, i[y][x])];
      }
      rows := rows + [row];
    }
    part := Part(bounds, rows, delay, true);
  }

  lemma EncodesMore(parts: seq<Part>, frames: seq<Frame>, palette: seq<Color>, k: nat, part: Part)
    requires palette != [] && ValidFrames(frames) && k < |frames| && Encodes(parts, frames[..k], palette)
    requires Shows(part, frames[k].image, palette) && part.delay == frames[k].delay && part.leftInPlace
    requires if k == 0 then part.bounds == WHOLE else LeastChanged(frames[k - 1].image, frames[k].image, part.bounds)
    ensures Encodes(parts + [part], frames[..k + 1], palette)
  {
    hide Shows;
    hide HullSoFar;
    var more, upTo := parts + [part], frames[..k + 1];
    forall i | 0 <= i < k + 1
      ensures Shows(more[i], upTo[i].image, palette) && more[i].delay == upTo[i].delay && more[i].leftInPlace
    {
      if i < k { assert more[i] == parts[i] && upTo[i] == frames[..k][i]; }
    }
    forall i | 0 < i < k + 1 ensures LeastChanged(upTo[i - 1].image, upTo[i].image, more[i].bounds) {
      if i < k { assert more[i] == parts[i] && upTo[i] == frames[..k][i] && upTo[i - 1] == frames[..k][i - 1]; }
    }
  }

  /** encodeRawGIF up to the byte format: nothing for an invalid source. */
  method EncodeRaw(source: seq<Frame>, palette: seq<Color>) returns (r: Option<Animation>)
    requires palette != []
    ensures r.Some? <==> source != [] && ValidFrames(source)
    ensures r.Some? ==> ValidFrames(Merge(source)) && EncodesAll(r.value, Merge(source), palette)
  {
    hide Canvas;
    hide Shows;
    hide HullSoFar;
    hide Merge;
    var frames := CoalesceFrames(source);
    if frames.None? { return None; }
    MergeShowsTheSame(source, 0);
    var parts: seq<Part> := [];
    for k := 0 to |frames.value|
      invariant Encodes(parts, frames.value[..k], palette)
    {
      var current := frames.value[k];
      assert ValidFrame(current);
      var bounds := WHOLE;
      if k > 0 {
        assert ValidFrame(frames.value[k - 1]);
        bounds := ChangedBounds(frames.value[k - 1].image, current.image);
        EmptyIffEqual(frames.value[k - 1].image, current.image, bounds);
        if Empty(bounds) { assert false; }
        BoundsInside(frames.value[k - 1].image, current.image, bounds);
      }
      var part := StoreRect(current.image, bounds, current.delay, palette);
      EncodesMore(parts, frames.value, palette, k, part);
      parts := parts + [part];
    }
    assert frames.value[..|frames.value|] == frames.value;
    return Some(Animation(WIDTH, HEIGHT, 0, parts));
  }

  lemma BoundsInside(p: Image, c: Image, r: Rect)
    requires Canvas(p) && Canvas(c) && LeastChanged(p, c, r)
    ensures Inside(r)
  {
  }

  /** The canvas as an image. */
  ghost function Pixels(canvas: array2<Color>): Image
    requires canvas.Length0 == HEIGHT && canvas.Length1 == WIDTH
    reads canvas
  {
    seq(HEIGHT, y requires 0 <= y < HEIGHT reads canvas => RowOf(canvas, y))
  }

  ghost function RowOf(canvas: array2<Color>, y: nat): seq<Color>
    requires canvas.Length0 == HEIGHT && canvas.Length1 == WIDTH && y < HEIGHT
    reads canvas
  {
    seq(WIDTH, x requires 0 <= x < WIDTH reads canvas => canvas[y, x])
  }

  /** Draws the rectangle onto the canvas in place. */
  method DrawPart(canvas: array2<Color>, part: Part, palette: seq<Color>)
    requires canvas.Length0 == HEIGHT && canvas.Length1 == WIDTH && ValidPart(part, palette)
    modifies canvas
    ensures Canvas(old(Pixels(canvas))) && Pixels(canvas) == Draw(old(Pixels(canvas)), part, palette)
  {
    var b := part.bounds;
    for y := b.y0 to b.y1
      invariant forall i, j :: 0 <= i < WIDTH && 0 <= j < HEIGHT ==>
        canvas[j, i] == if In(b, i, j) && j < y then palette[part.pixels[j - b.y0][i - b.x0]] else old(canvas[j, i])
    {
      for x := b.x0 to b.x1
        invariant forall i, j :: 0 <= i < WIDTH && 0 <= j < HEIGHT ==>
          canvas[j, i] == if In(b, i, j) && Visited(i, j, x, y) then palette[part.pixels[j - b.y0][i - b.x0]]
            else old(canvas[j, i])
      {
        canvas[y, x] := palette[part.pixels[y - b.y0][x - b.x0]];
      }
    }
    ghost var before := old(Pixels(canvas));
    assert Canvas(before);
    forall y | 0 <= y < HEIGHT ensures Pixels(canvas)[y] == Draw(before, part, palette)[y] {
      forall x | 0 <= x < WIDTH ensures Pixels(canvas)[y][x] == Draw(before, part, palette)[y][x] { }
    }
  }

  method Snapshot(canvas: array2<Color>) returns (i: Image)
    requires canvas.Length0 == HEIGHT && canvas.Length1 == WIDTH
    ensures i == Pixels(canvas)
  {
    i := [];
    for y := 0 to HEIGHT
      invariant |i| == y && forall j :: 0 <= j < y ==> i[j] == RowOf(canvas, j)
    {
      var row: seq<Color> := [];
      for x := 0 to WIDTH
        invariant |row| == x && forall k :: 0 <= k < x ==> row[k] == canvas[y, k]
      {
        row := row + [canvas[y, x]];
      }
      assert row == RowOf(canvas, y);
      i := i + [row];
    }
  }

  /** decodeMockGIF from what the file reads as: one canvas, copied out after each part. */
  method DecodeAnimation(a: Animation, palette: seq<Color>) returns (r: Option<seq<Frame>>)
    requires ValidParts(a.parts, palette)
    ensures r == Decode(a, palette)
  {
    hide Draw;
    hide Pixels;
    hide ValidPart;
    hide DrawAll;
    hide BlankRow;
    hide Blank;
    var parts := a.parts;
    NothingDrawn(palette);
    if a.width != WIDTH || a.height != HEIGHT || a.loopCount != 0 || |parts| == 0 { return None; }
    var canvas := new Color[HEIGHT, WIDTH]((y, x) => Color(0, 0, 0, 0));
    var frames: seq<Frame> := [];
    BlankCanvas(canvas);
    for k := 0 to |parts|
      invariant Pixels(canvas) == DrawAll(parts[..k], palette)
      invariant |frames| == k
      invariant forall i :: 0 <= i < k ==> frames[i] == Frame(DrawAll(parts[..i + 1], palette), parts[i].delay)
      invariant forall i :: 0 <= i < k ==> parts[i].delay > 0 && parts[i].leftInPlace
    {
      if parts[k].delay <= 0 || !parts[k].leftInPlace { return None; }
      DrawPart(canvas, parts[k], palette);
      DrawNext(parts, palette, k);
      var image := Snapshot(canvas);
      frames := frames + [Frame(image, parts[k].delay)];
    }
    assert frames == Decoded(parts, palette);
    return Some(frames);
  }

  lemma NothingDrawn(palette: seq<Color>)
    ensures DrawAll([], palette) == Blank()
  {
  }

  lemma DrawNext(parts: seq<Part>, palette: seq<Color>, k: nat)
    requires ValidParts(parts, palette) && k < |parts|
    ensures DrawAll(parts[..k + 1], palette) == Draw(DrawAll(parts[..k], palette), parts[k], palette)
  {
    assert parts[..k + 1][..k] == parts[..k];
  }

  lemma BlankCanvas(canvas: array2<Color>)
    requires canvas.Length0 == HEIGHT && canvas.Length1 == WIDTH
    requires forall y, x :: 0 <= y < HEIGHT && 0 <= x < WIDTH ==> canvas[y, x] == Color(0, 0, 0, 0)
    ensures Pixels(canvas) == Blank()
  {
    forall y | 0 <= y < HEIGHT ensures Pixels(canvas)[y] == Blank()[y] {
      assert RowOf(canvas, y) == BlankRow();
    }
  }
}
