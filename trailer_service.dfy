/** Trailer listings (services/trailer.service.js): the image-count rules and
    the placeholder fallback of `create`, the keep/append image list and the
    `??` field merge of `update`, the status change with its notification,
    and the location terms and sort order of `searchTrailers`. */
module TrailerService {
  import opened Common
  import opened Store

  /** The image URL stored for every file when an upload fails at creation. */
  const Placeholder: string := "https://placehold.co/800x600?text=No+Image"

  /** The moderation status a new listing starts in. It is the trailer
      schema's default, which the admin approval flow then changes. */
  const InitialStatus: string := "pending"

  /** An uploaded file's bytes. */
  type File = seq<bv8>

  /** The file-count validation of `create`: absent files count as none. */
  function CheckFileCount(files: seq<File>): (r: Outcome)
    ensures r == Done <==> 1 <= |files| <= MaxImages
    ensures r.Failed? ==> r.error == Invalid
  {
    if |files| == 0 then Failed(Invalid)
    else if |files| > MaxImages then Failed(Invalid)
    else Done
  }

  /** `Promise.all(files.map(uploadFile))`: every URL in file order, or
      `None` as soon as one upload fails. `upload` stands for the external
      file store. */
  function UploadAll(files: seq<File>, upload: File -> Option<string>): (r: Option<seq<string>>)
    ensures r.Some? <==> forall i :: 0 <= i < |files| ==> upload(files[i]).Some?
    ensures r.Some? ==> |r.value| == |files| && forall i :: 0 <= i < |files| ==> r.value[i] == upload(files[i]).value
    decreases |files|
  {
    if files == [] then Some([])
    else
      var head := upload(files[0]);
      var tail := UploadAll(files[1..], upload);
      if head.None? || tail.None? then
        assert head.None? ==> !upload(files[0]).Some?;
        None
      else Some([head.value] + tail.value)
  }

  /** The images `create` stores, and whether it reports an upload warning:
      the uploaded URLs, or one placeholder per file when any upload failed. */
  function CreationImages(files: seq<File>, upload: File -> Option<string>): (r: (seq<string>, bool))
    ensures |r.0| == |files|
    ensures r.1 <==> exists i :: 0 <= i < |files| && upload(files[i]).None?
    ensures r.1 ==> forall i :: 0 <= i < |files| ==> r.0[i] == Placeholder
    ensures !r.1 ==> forall i :: 0 <= i < |files| ==> r.0[i] == upload(files[i]).value
  {
    var uploaded := UploadAll(files, upload);
    if uploaded.Some? then (uploaded.value, false)
    else (seq(|files|, _ => Placeholder), true)
  }

  /** A multipart field that may be absent, sent once (a string) or sent
      several times (an array). */
  datatype ImageField = Absent | One(url: string) | Many(urls: seq<string>) {
    /** JavaScript truthiness: an empty string is falsy, any array is truthy. */
    predicate Truthy() {
      match this
      case Absent => false
      case One(url) => url != ""
      case Many(_) => true
    }

    /** `Array.isArray(raw) ? raw : [raw]`. */
    function Listed(): seq<string> {
      match this
      case Absent => []
      case One(url) => [url]
      case Many(urls) => urls
    }
  }

  /** `existingImages || req.body["existingImages[]"]`. */
  function PickExisting(existing: ImageField, bracketed: ImageField): (r: ImageField)
    ensures existing.Truthy() ==> r == existing
    ensures !existing.Truthy() ==> r == bracketed
  {
    if existing.Truthy() then existing else bracketed
  }

  /** `images.filter(img => keep.includes(img))`. */
  function Filter(images: seq<string>, keep: seq<string>): (r: seq<string>)
    ensures |r| <= |images|
    ensures forall x :: x in r <==> x in images && x in keep
    decreases |images|
  {
    if images == [] then []
    else if images[0] in keep then [images[0]] + Filter(images[1..], keep)
    else Filter(images[1..], keep)
  }

  /** The filter works piece by piece, so the kept images stay in their
      original relative order. */
  lemma {:induction false} FilterAppend(s: seq<string>, t: seq<string>, keep: seq<string>)
    ensures Filter(s + t, keep) == Filter(s, keep) + Filter(t, keep)
    decreases |s|
  {
    if s == [] {
      assert s + t == t;
    } else {
      assert (s + t)[0] == s[0];
      assert (s + t)[1..] == s[1..] + t;
      FilterAppend(s[1..], t, keep);
      if s[0] in keep {
        assert Filter(s + t, keep) == [s[0]] + Filter(s[1..] + t, keep);
        assert Filter(s, keep) == [s[0]] + Filter(s[1..], keep);
      } else {
        assert Filter(s + t, keep) == Filter(s[1..] + t, keep);
        assert Filter(s, keep) == Filter(s[1..], keep);
      }
    }
  }

  /** Listing every image keeps the whole list as it was. */
  lemma {:induction false} FilterKeepsAll(images: seq<string>, keep: seq<string>)
    requires forall x :: x in images ==> x in keep
    ensures Filter(images, keep) == images
    decreases |images|
  {
    if images != [] {
      assert images == [images[0]] + images[1..];
      FilterKeepsAll(images[1..], keep);
    }
  }

  /** Filtering a second time with the same list changes nothing. */
  lemma FilterIdempotent(images: seq<string>, keep: seq<string>)
    ensures Filter(Filter(images, keep), keep) == Filter(images, keep)
  {
    FilterKeepsAll(Filter(images, keep), keep);
  }

  /** The images `update` keeps: the stored images that the request lists,
      in stored order; none when the request lists no images at all. */
  function KeptImages(images: seq<string>, raw: ImageField): (r: seq<string>)
    ensures !raw.Truthy() ==> r == []
    ensures raw.Truthy() ==> forall x :: x in r <==> x in images && x in raw.Listed()
    ensures |r| <= |images|
  {
    if raw.Truthy() then Filter(images, raw.Listed()) else []
  }

  /** The nullable fields of an `update` request; `None` is null or undefined. */
  datatype Patch = Patch(
    latitude: Option<string>, longitude: Option<string>, title: Option<string>, category: Option<string>,
    description: Option<string>, zip: Option<string>, dailyRate: Option<string>, depositRate: Option<string>,
    city: Option<string>, country: Option<string>, closedDates: Option<string>, hitchType: Option<string>,
    state: Option<string>, lightPlug: Option<string>, weightCapacity: Option<string>, make: Option<string>,
    model: Option<string>, year: Option<string>, length: Option<string>, ballSize: Option<string>,
    dimensions: Option<string>)

  /** `field = supplied ?? field`, attribute by attribute: an attribute
      becomes the supplied value when there is one and keeps the stored
      value otherwise. */
  function Merge(d: Details, p: Patch): (r: Details)
    ensures forall a :: Get(r, a) == if Supplied(p, a).Some? then Supplied(p, a).value else Get(d, a)
  {
    Details(
      p.latitude.OrElse(d.latitude), p.longitude.OrElse(d.longitude), p.title.OrElse(d.title),
      p.category.OrElse(d.category), p.description.OrElse(d.description), p.zip.OrElse(d.zip),
      p.dailyRate.OrElse(d.dailyRate), p.depositRate.OrElse(d.depositRate), p.city.OrElse(d.city),
      p.country.OrElse(d.country), p.closedDates.OrElse(d.closedDates), p.hitchType.OrElse(d.hitchType),
      p.state.OrElse(d.state), p.lightPlug.OrElse(d.lightPlug), p.weightCapacity.OrElse(d.weightCapacity),
      p.make.OrElse(d.make), p.model.OrElse(d.model), p.year.OrElse(d.year), p.length.OrElse(d.length),
      p.ballSize.OrElse(d.ballSize), p.dimensions.OrElse(d.dimensions))
  }

  /** A request that supplies none of the fields. */
  const NoChange: Patch := Patch(None, None, None, None, None, None, None, None, None, None, None,
                                 None, None, None, None, None, None, None, None, None, None)

  /** A request that supplies every field, with the values of `d`. */
  function Supplying(d: Details): Patch {
    Patch(Some(d.latitude), Some(d.longitude), Some(d.title), Some(d.category), Some(d.description),
          Some(d.zip), Some(d.dailyRate), Some(d.depositRate), Some(d.city), Some(d.country),
          Some(d.closedDates), Some(d.hitchType), Some(d.state), Some(d.lightPlug), Some(d.weightCapacity),
          Some(d.make), Some(d.model), Some(d.year), Some(d.length), Some(d.ballSize), Some(d.dimensions))
  }

  /** Supplying nothing keeps every attribute; supplying everything replaces
      every attribute; a supplied empty string is not nullish and replaces too. */
  lemma MergeExtremes(d: Details, d': Details)
    ensures Merge(d, NoChange) == d
    ensures Merge(d, Supplying(d')) == d'
    ensures Merge(d, NoChange.(title := Some(""))) == d.(title := "")
  {
  }

  /** The attributes of a listing, one per field of `Details`. */
  datatype Attribute =
    | Latitude | Longitude | Title | Category | Description | Zip | DailyRate | DepositRate
    | City | Country | ClosedDates | HitchType | State | LightPlug | WeightCapacity | Make
    | Model | Year | Length | BallSize | Dimensions

  function Get(d: Details, a: Attribute): string {
    match a
    case Latitude => d.latitude
    case Longitude => d.longitude
    case Title => d.title
    case Category => d.category
    case Description => d.description
    case Zip => d.zip
    case DailyRate => d.dailyRate
    case DepositRate => d.depositRate
    case City => d.city
    case Country => d.country
    case ClosedDates => d.closedDates
    case HitchType => d.hitchType
    case State => d.state
    case LightPlug => d.lightPlug
    case WeightCapacity => d.weightCapacity
    case Make => d.make
    case Model => d.model
    case Year => d.year
    case Length => d.length
    case BallSize => d.ballSize
    case Dimensions => d.dimensions
  }

  function Supplied(p: Patch, a: Attribute): Option<string> {
    match a
    case Latitude => p.latitude
    case Longitude => p.longitude
    case Title => p.title
    case Category => p.category
    case Description => p.description
    case Zip => p.zip
    case DailyRate => p.dailyRate
    case DepositRate => p.depositRate
    case City => p.city
    case Country => p.country
    case ClosedDates => p.closedDates
    case HitchType => p.hitchType
    case State => p.state
    case LightPlug => p.lightPlug
    case WeightCapacity => p.weightCapacity
    case Make => p.make
    case Model => p.model
    case Year => p.year
    case Length => p.length
    case BallSize => p.ballSize
    case Dimensions => p.dimensions
  }

  /** Sending the same update twice leaves the listing as sending it once. */
  lemma MergeIdempotent(d: Details, p: Patch)
    ensures Merge(Merge(d, p), p) == Merge(d, p)
  {
  }

  /** `create`: validate the file count, upload (falling back to
      placeholders), store the listing and notify its owner once. The
      request's `depositRate` is not read, so a new listing has none. */
  method Create(db: Database, userId: Id, body: Details, files: seq<File>, upload: File -> Option<string>)
    returns (r: Result<Id>, uploadWarning: bool)
    requires db.Valid()
    modifies db`trailers, db`notifications, db`nextId
    ensures db.Valid()
    ensures r.Err? <==> CheckFileCount(files).Failed?
    ensures r.Err? ==> r.error == Invalid && db.trailers == old(db.trailers) && db.notifications == old(db.notifications)
    ensures r.Ok? ==>
      && r.value !in old(db.trailers)
      && db.trailers == old(db.trailers)[r.value :=
           Trailer(userId, InitialStatus, CreationImages(files, upload).0, body.(depositRate := ""))]
      && uploadWarning == CreationImages(files, upload).1
      && db.notifications == old(db.notifications) + [Notification(userId, "Trailer Listing Submitted")]
  {
    var checked := CheckFileCount(files);
    if checked.Failed? {
      return Err(checked.error), false;
    }
    var images;
    images, uploadWarning := CreationImages(files, upload).0, CreationImages(files, upload).1;
    var id := db.FreshId();
    db.trailers := db.trailers[id := Trailer(userId, InitialStatus, images, body.(depositRate := ""))];
    db.Notify(userId, "Trailer Listing Submitted");
    return Ok(id), uploadWarning;
  }

  /** `changeStatus`: set the status of an existing listing and notify its
      owner once; a missing id writes nothing. */
  method ChangeStatus(db: Database, id: Id, status: string) returns (r: Outcome)
    requires db.Valid()
    modifies db`trailers, db`notifications
    ensures db.Valid()
    ensures id !in old(db.trailers) ==> r == Failed(NotFound) && unchanged(db)
    ensures id in old(db.trailers) ==> var t := old(db.trailers)[id];
      && r == Done
      && db.trailers == old(db.trailers)[id := t.(status := status)]
      && db.notifications == old(db.notifications) + [Notification(t.userId, "Trailer " + status)]
  {
    if id !in db.trailers {
      return Failed(NotFound);
    }
    var updated := db.trailers[id].(status := status);
    db.trailers := db.trailers[id := updated];
    db.Notify(updated.userId, "Trailer " + status);
    return Done;
  }

  /** `update`: keep the listed images, append the uploads (refusing to go
      over the maximum), merge the supplied attributes and save. A failed
      call saves nothing. */
  method Update(db: Database, id: Id, patch: Patch, existing: ImageField, bracketed: ImageField,
                files: seq<File>, upload: File -> Option<string>) returns (r: Outcome)
    requires db.Valid()
    modifies db`trailers
    ensures db.Valid()
    ensures id !in old(db.trailers) ==> r == Failed(NotFound) && db.trailers == old(db.trailers)
    ensures id in old(db.trailers) ==>
      var t := old(db.trailers)[id];
      var kept := KeptImages(t.images, PickExisting(existing, bracketed));
      if |files| > 0 && |kept| + |files| > MaxImages then
        r == Failed(Invalid) && db.trailers == old(db.trailers)
      else if |files| > 0 && UploadAll(files, upload).None? then
        r == Failed(UpstreamError) && db.trailers == old(db.trailers)
      else
        && r == Done
        && db.trailers == old(db.trailers)[id := t.(
             images := kept + (if |files| > 0 then UploadAll(files, upload).value else []),
             details := Merge(t.details, patch))]
        && |db.trailers[id].images| <= MaxImages
  {
    if id !in db.trailers {
      return Failed(NotFound);
    }
    var trailer := db.trailers[id];
    var newImages := trailer.images;
    var raw := PickExisting(existing, bracketed);
    if raw.Truthy() {
      newImages := Filter(newImages, raw.Listed());
    } else {
      newImages := [];
    }
    assert newImages == KeptImages(trailer.images, raw);
    if |files| > 0 {
      if |newImages| + |files| > MaxImages {
        return Failed(Invalid);
      }
      var uploaded := UploadAll(files, upload);
      if uploaded.None? {
        return Failed(UpstreamError);
      }
      newImages := newImages + uploaded.value;
    } else {
      assert newImages + [] == newImages;
    }
    trailer := trailer.(details := Merge(trailer.details, patch));
    trailer := trailer.(images := newImages);
    db.trailers := db.trailers[id := trailer];
    return Done;
  }

  // ---- searchTrailers: location terms and sort order ----

  /** The characters JavaScript's `trim` removes and `\s` matches: the
      WhiteSpace and LineTerminator code points of ECMAScript. */
  predicate IsSpace(c: char) {
    || c == '\t' || c == '\n' || c == '\U{000B}' || c == '\U{000C}' || c == '\r' || c == ' '
    || c == '\U{00A0}' || c == '\U{1680}' || ('\U{2000}' <= c <= '\U{200A}')
    || c == '\U{2028}' || c == '\U{2029}' || c == '\U{202F}' || c == '\U{205F}'
    || c == '\U{3000}' || c == '\U{FEFF}'
  }

  /** A character of the separator class `[,\s]`. */
  predicate IsSeparator(c: char) {
    c == ',' || IsSpace(c)
  }

  function TrimStart(s: string): (r: string)
    ensures |r| <= |s| && r == s[|s| - |r|..]
    ensures forall i :: 0 <= i < |s| - |r| ==> IsSpace(s[i])
    ensures r != [] ==> !IsSpace(r[0])
    decreases |s|
  {
    if s != [] && IsSpace(s[0]) then TrimStart(s[1..]) else s
  }

  function TrimEnd(s: string): (r: string)
    ensures |r| <= |s| && r == s[..|r|]
    ensures forall i :: |r| <= i < |s| ==> IsSpace(s[i])
    ensures r != [] ==> !IsSpace(r[|r| - 1])
    decreases |s|
  {
    if s != [] && IsSpace(s[|s| - 1]) then TrimEnd(s[..|s| - 1]) else s
  }

  /** `String.prototype.trim`: the slice `s[i..j]` left once the white
      space before `i` and from `j` on is removed, which starts and ends with
      something else. */
  function Trim(s: string): (r: string)
    ensures exists i, j ::
              && 0 <= i <= j <= |s| && r == s[i..j]
              && (forall k :: 0 <= k < i ==> IsSpace(s[k]))
              && (forall k :: j <= k < |s| ==> IsSpace(s[k]))
    ensures r != [] ==> !IsSpace(r[0]) && !IsSpace(r[|r| - 1])
  {
    var t := TrimStart(s);
    var r := TrimEnd(t);
    TrimSlice(s, t, r);
    r
  }

  /** Cutting white space off the front of `s`, then off the back of the
      rest, leaves a slice of `s` with only white space around it. */
  lemma TrimSlice(s: string, t: string, r: string)
    requires |t| <= |s| && t == s[|s| - |t|..] && forall k :: 0 <= k < |s| - |t| ==> IsSpace(s[k])
    requires |r| <= |t| && r == t[..|r|] && forall k :: |r| <= k < |t| ==> IsSpace(t[k])
    ensures exists i, j ::
              && 0 <= i <= j <= |s| && r == s[i..j]
              && (forall k :: 0 <= k < i ==> IsSpace(s[k]))
              && (forall k :: j <= k < |s| ==> IsSpace(s[k]))
  {
    var i := |s| - |t|;
    var j := i + |r|;
    assert r == s[i..j];
    forall k | j <= k < |s|
      ensures IsSpace(s[k])
    {
      assert s[k] == t[k - i];
    }
  }

  /** Drop the leading run of separators. */
  function DropSeparators(s: string): (r: string)
    ensures |r| <= |s| && r == s[|s| - |r|..]
    ensures forall i :: 0 <= i < |s| - |r| ==> IsSeparator(s[i])
    ensures r != [] ==> !IsSeparator(r[0])
    decreases |s|
  {
    if s != [] && IsSeparator(s[0]) then DropSeparators(s[1..]) else s
  }

  /** `s.split(/[,\s]+/)`, with `current` the piece read so far: the text
      between maximal runs of separators, an empty piece at either end when
      `s` starts or ends with one. */
  function SplitFrom(s: string, current: string): (r: seq<string>)
    ensures |r| >= 1
    decreases |s|
  {
    if s == [] then [current]
    else if IsSeparator(s[0]) then [current] + SplitFrom(DropSeparators(s), "")
    else SplitFrom(s[1..], current + [s[0]])
  }

  function Split(s: string): (r: seq<string>)
    ensures |r| >= 1
  {
    SplitFrom(s, "")
  }

  /** Concatenation of a list of strings. */
  function Concat(pieces: seq<string>): string
    decreases |pieces|
  {
    if pieces == [] then "" else pieces[0] + Concat(pieces[1..])
  }

  /** The string with every separator removed. */
  function WithoutSeparators(s: string): (r: string)
    ensures forall c :: c in r ==> !IsSeparator(c)
    decreases |s|
  {
    if s == [] then ""
    else if IsSeparator(s[0]) then WithoutSeparators(s[1..])
    else [s[0]] + WithoutSeparators(s[1..])
  }

  /** A run of separators contributes nothing to the text. */
  lemma {:induction false} WithoutLeadingSeparators(s: string)
    ensures WithoutSeparators(DropSeparators(s)) == WithoutSeparators(s)
    decreases |s|
  {
    if s != [] && IsSeparator(s[0]) {
      WithoutLeadingSeparators(s[1..]);
    }
  }

  lemma ConcatPrepend(x: string, rest: seq<string>)
    ensures Concat([x] + rest) == x + Concat(rest)
  {
    assert ([x] + rest)[1..] == rest;
  }

  /** The pieces hold no separator, and together they are exactly the
      non-separator characters of the input, in order. */
  lemma {:induction false} SplitFromPieces(s: string, current: string)
    requires forall c :: c in current ==> !IsSeparator(c)
    ensures forall p, c :: p in SplitFrom(s, current) && c in p ==> !IsSeparator(c)
    ensures Concat(SplitFrom(s, current)) == current + WithoutSeparators(s)
    decreases |s|
  {
    if s == [] {
      assert Concat([current]) == current + Concat([]);
    } else if IsSeparator(s[0]) {
      var rest := DropSeparators(s);
      SplitFromPieces(rest, "");
      ConcatPrepend(current, SplitFrom(rest, ""));
      WithoutLeadingSeparators(s);
      assert WithoutSeparators(rest) == WithoutSeparators(s);
      assert "" + WithoutSeparators(rest) == WithoutSeparators(rest);
    } else {
      SplitFromPieces(s[1..], current + [s[0]]);
      assert current + [s[0]] + WithoutSeparators(s[1..]) == current + ([s[0]] + WithoutSeparators(s[1..]));
    }
  }

  lemma SplitPieces(s: string)
    ensures forall p, c :: p in Split(s) && c in p ==> !IsSeparator(c)
    ensures Concat(Split(s)) == WithoutSeparators(s)
  {
    SplitFromPieces(s, "");
  }

  /** Text without separators is read into the current piece whole. */
  lemma {:induction false} SplitFromWord(x: string, w: string, current: string)
    requires forall c :: c in x ==> !IsSeparator(c)
    ensures SplitFrom(x + w, current) == SplitFrom(w, current + x)
    decreases |x|
  {
    if x == [] {
      assert x + w == w && current + x == current;
    } else {
      assert (x + w)[0] == x[0] && (x + w)[1..] == x[1..] + w;
      assert x[0] in x;
      SplitFromWord(x[1..], w, current + [x[0]]);
      assert current + [x[0]] + x[1..] == current + x;
    }
  }

  /** A run of separators followed by a non-separator is dropped whole. */
  lemma {:induction false} DropSeparatorRun(z: string, y: string)
    requires forall c :: c in z ==> IsSeparator(c)
    requires y == [] || !IsSeparator(y[0])
    ensures DropSeparators(z + y) == y
    decreases |z|
  {
    if z == [] {
      assert z + y == y;
    } else {
      assert z[0] in z;
      assert (z + y)[0] == z[0] && (z + y)[1..] == z[1..] + y;
      DropSeparatorRun(z[1..], y);
    }
  }

  /** Where the split breaks: text without separators is one piece, and a
      word `x` followed by a maximal run `z` of separators is the first piece
      of `x + z + y`, the rest coming from `y`. An input that starts with a
      separator has the word "" first. */
  lemma SplitBreaks(x: string, z: string, y: string)
    requires forall c :: c in x ==> !IsSeparator(c)
    requires z != [] && forall c :: c in z ==> IsSeparator(c)
    requires y == [] || !IsSeparator(y[0])
    ensures Split(x) == [x]
    ensures Split(x + z + y) == [x] + Split(y)
  {
    SplitWord(x);
    var w := z + y;
    assert x + z + y == x + w;
    SplitFromWord(x, w, "");
    assert "" + x == x;
    assert w[0] == z[0] && z[0] in z;
    assert SplitFrom(w, x) == [x] + SplitFrom(DropSeparators(w), "");
    DropSeparatorRun(z, y);
  }

  lemma SplitWord(x: string)
    requires forall c :: c in x ==> !IsSeparator(c)
    ensures Split(x) == [x]
  {
    SplitFromWord(x, [], "");
    assert x + [] == x && "" + x == x;
  }

  /** The length JavaScript reports for a string: its UTF-16 code units, two
      for every character outside the Basic Multilingual Plane. */
  function Utf16Length(s: string): (n: nat)
    ensures |s| <= n <= 2 * |s|
    ensures (forall i :: 0 <= i < |s| ==> s[i] <= '\U{FFFF}') ==> n == |s|
    decreases |s|
  {
    if s == [] then 0
    else (if s[0] <= '\U{FFFF}' then 1 else 2) + Utf16Length(s[1..])
  }

  /** A single character outside the Basic Multilingual Plane already has
      length two, while one inside it has length one. */
  lemma Utf16LengthOfOne(c: char)
    ensures Utf16Length([c]) == (if c <= '\U{FFFF}' then 1 else 2)
    ensures Utf16Length([c]) >= 2 <==> c > '\U{FFFF}'
  {
    assert [c][1..] == [];
  }

  /** `.filter(p => p.length >= 2)`, with JavaScript's length. */
  function LongPieces(pieces: seq<string>): (r: seq<string>)
    ensures forall p :: p in r <==> p in pieces && Utf16Length(p) >= 2
    ensures |r| <= |pieces|
    decreases |pieces|
  {
    if pieces == [] then []
    else if Utf16Length(pieces[0]) >= 2 then [pieces[0]] + LongPieces(pieces[1..])
    else LongPieces(pieces[1..])
  }

  /** The filter works piece by piece, so the kept pieces stay in their order. */
  lemma {:induction false} LongPiecesAppend(s: seq<string>, t: seq<string>)
    ensures LongPieces(s + t) == LongPieces(s) + LongPieces(t)
    decreases |s|
  {
    if s == [] {
      assert s + t == t;
    } else {
      assert (s + t)[0] == s[0];
      assert (s + t)[1..] == s[1..] + t;
      LongPiecesAppend(s[1..], t);
      if Utf16Length(s[0]) >= 2 {
        assert LongPieces(s + t) == [s[0]] + LongPieces(s[1..] + t);
        assert LongPieces(s) == [s[0]] + LongPieces(s[1..]);
      } else {
        assert LongPieces(s + t) == LongPieces(s[1..] + t);
        assert LongPieces(s) == LongPieces(s[1..]);
      }
    }
  }

  /** One piece is kept iff its JavaScript length is at least two. */
  lemma LongPiecesOfOne(p: string)
    ensures LongPieces([p]) == (if Utf16Length(p) >= 2 then [p] else [])
  {
    assert [p][1..] == [];
  }

  /** The location terms of a search: none when `location` is absent or
      empty, otherwise the pieces of the trimmed text whose JavaScript
      length is at least two. */
  function LocationTerms(location: Option<string>): (r: seq<string>)
    ensures Text(location) == "" ==> r == []
    ensures forall p :: p in r <==> Text(location) != "" && p in Split(Trim(location.value)) && Utf16Length(p) >= 2
  {
    if Text(location) == "" then [] else LongPieces(Split(Trim(location.value)))
  }

  /** A word is a term exactly when it is a piece of the trimmed input of
      JavaScript length two or more; a term holds no comma or white space. */
  lemma LocationTermsAreWords(location: string)
    ensures forall p :: p in LocationTerms(Some(location)) <==>
      p in Split(Trim(location)) && Utf16Length(p) >= 2
    ensures forall p, c :: p in LocationTerms(Some(location)) && c in p ==> !IsSeparator(c)
  {
    SplitPieces(Trim(location));
    if location == "" {
      assert Split(Trim(location)) == [""];
    }
  }

  datatype SortKey = ByDailyRate | ByCreatedAt
  datatype Direction = Ascending | Descending

  /** The sort `searchTrailers` applies for a `sortBy` value. */
  function SortFor(sortBy: Option<string>): (r: (SortKey, Direction))
    ensures r.0 == ByDailyRate <==> sortBy == Some("price_asc") || sortBy == Some("price_desc")
    ensures r.1 == Ascending <==> sortBy == Some("price_asc") || sortBy == Some("oldest")
  {
    if Text(sortBy) == "" then (ByCreatedAt, Descending)
    else match sortBy.value
      case "price_asc" => (ByDailyRate, Ascending)
      case "price_desc" => (ByDailyRate, Descending)
      case "newest" => (ByCreatedAt, Descending)
      case "oldest" => (ByCreatedAt, Ascending)
      case _ => (ByCreatedAt, Descending)
  }

  /** Anything but the four known values, and no value at all, sorts newest first. */
  lemma DefaultSortIsNewest(sortBy: Option<string>)
    requires sortBy !in {Some("price_asc"), Some("price_desc"), Some("oldest")}
    ensures SortFor(sortBy) == SortFor(Some("newest")) == (ByCreatedAt, Descending)
  {
  }
}
