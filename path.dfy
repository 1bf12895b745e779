/**
 * The text a Thumbor URL is made of: each directive as the builder writes it,
 * the path that joins them in the protocol's fixed order, the signature
 * segment and the finished URL. The parsers here are partners only: they read
 * a directive back, to show that the written form determines its arguments.
 */
module ThumborPath {
  import opened Php
  import opened Decimal
  import opened Signing

  /** The builder's directive fields, each as the source stores it (`null` is `None`). */
  datatype Directives = Directives(
    trim: Option<string>,
    crop: Option<string>,
    resize: Option<string>,
    filters: seq<string>,
    url: Option<string>)

  /** A freshly constructed builder: nothing set, no filters. */
  const Unset := Directives(None, None, None, [], None)

  /** The three ways of writing the `resize` field: `resize`, `fitIn` and `fullFitIn`. */
  datatype Fit = Plain | FitIn | FullFitIn

  const Unsafe := "unsafe"

  /** `"{$width}x{$height}"`, also the shape of each corner of a crop box. */
  function Dimensions(width: int, height: int): string {
    IntToString(width) + "x" + IntToString(height)
  }

  /** `"{$left}x{$top}:{$right}x{$bottom}"`. */
  function CropSpec(left: int, top: int, right: int, bottom: int): string {
    Dimensions(left, top) + ":" + Dimensions(right, bottom)
  }

  function FitPrefix(fit: Fit): string {
    match fit
    case Plain => ""
    case FitIn => "fit-in/"
    case FullFitIn => "full-fit-in/"
  }

  /** What `resize`, `fitIn` and `fullFitIn` store in the one `resize` field. */
  function ResizeSpec(fit: Fit, width: int, height: int): string {
    FitPrefix(fit) + Dimensions(width, height)
  }

  /** `":" . $v` when `$v` is truthy, nothing otherwise. */
  function Suffix(v: Option<string>): string {
    if Truthy(v) then ":" + v.value else ""
  }

  /** `'trim' . ($orientation ? ":$orientation" : '') . ($tolerance ? ":$tolerance" : '')`. */
  function TrimSpec(orientation: Option<string>, tolerance: Option<string>): string {
    "trim" + Suffix(orientation) + Suffix(tolerance)
  }

  /** `sprintf('%s(%s)', $filter, implode(',', $args))`. */
  function FilterCall(name: string, args: seq<string>): string {
    name + "(" + Implode(',', args) + ")"
  }

  /** `$filters ? 'filters:' . implode(':', $filters) : ''`. */
  function FiltersSegment(filters: seq<string>): string {
    if |filters| == 0 then "" else "filters:" + Implode(':', filters)
  }

  /** The array that `build` filters, in the protocol's order. */
  function Segments(d: Directives): seq<Option<string>> {
    [d.trim, d.crop, d.resize, Some(FiltersSegment(d.filters)), d.url]
  }

  /** `implode('/', array_filter([...]))`: the path that is signed. */
  function Path(d: Directives): string {
    Implode('/', ArrayFilter(Segments(d)))
  }

  /** The segment after the server: `unsafe` for a falsy secret, the signature otherwise. */
  function Signature(secret: Option<string>, path: string, mac: Mac): (r: string)
    ensures '/' !in r
    ensures r == Unsafe <==> !Truthy(secret)
  {
    if Truthy(secret) then Sign(mac, path, secret.value) else Unsafe
  }

  /** `build()`: `implode('/', [$server, $signature, $path])`. */
  function BuildUrl(server: string, secret: Option<string>, d: Directives, mac: Mac): (r: string)
    ensures r == server + "/" + Signature(secret, Path(d), mac) + "/" + Path(d)
  {
    var sig := Signature(secret, Path(d), mac);
    assert [server, sig, Path(d)][1..] == [sig, Path(d)];
    assert Implode('/', [sig, Path(d)]) == sig + "/" + Path(d);
    Implode('/', [server, sig, Path(d)])
  }

  /**
   * The URL reads back as its three parts: after the server and a `/`, the
   * first `/`-separated piece is the signature segment, which is `unsafe`
   * exactly when the secret is falsy, and everything after it and its `/` is
   * the path.
   */
  lemma UrlSegments(server: string, secret: Option<string>, d: Directives, mac: Mac)
    ensures var r := BuildUrl(server, secret, d, mac);
      var rest := r[|server| + 1..];
      var sig := Explode('/', rest)[0];
      && r[..|server| + 1] == server + "/"
      && sig == Signature(secret, Path(d), mac)
      && (sig == Unsafe <==> !Truthy(secret))
      && rest[|sig| + 1..] == Path(d)
  {
    var sig, path := Signature(secret, Path(d), mac), Path(d);
    var r := BuildUrl(server, secret, d, mac);
    assert r[|server| + 1..] == sig + "/" + path;
    ExplodeCons('/', sig, path);
    assert (sig + "/" + path)[|sig| + 1..] == path;
  }

  /**
   * With no trim set, a crop box is the first thing after the signature
   * segment, before the resize, filters and url segments.
   */
  lemma CropFollowsSignature(server: string, secret: Option<string>, d: Directives, mac: Mac,
                             left: int, top: int, right: int, bottom: int)
    requires !Truthy(d.trim)
    requires d.crop == Some(CropSpec(left, top, right, bottom))
    ensures var r := BuildUrl(server, secret, d, mac);
      var prefix := server + "/" + Signature(secret, Path(d), mac) + "/" + CropSpec(left, top, right, bottom);
      |prefix| <= |r| && r[..|prefix|] == prefix
  {
    var c := CropSpec(left, top, right, bottom);
    DirectivesTruthy(left, top, right, bottom, Plain, 0, 0, None, None, []);
    PathStartsWith(d, c);
    var p := Path(d);
    var sig := Signature(secret, p, mac);
    var head := server + "/" + sig + "/";
    assert BuildUrl(server, secret, d, mac) == head + p;
    assert (head + p)[..|head| + |c|] == head + p[..|c|];
  }

  /** A path whose first truthy segment is `c` begins with `c`. */
  lemma PathStartsWith(d: Directives, c: string)
    requires !Truthy(d.trim)
    requires d.crop == Some(c) && Truthy(d.crop)
    ensures |c| <= |Path(d)| && Path(d)[..|c|] == c
  {
    var p := Path(d);
    var r, f, u := Slot('/', d.resize), Slot('/', Some(FiltersSegment(d.filters))), Slot('/', d.url);
    var tail := "/" + r + f + u;
    assert p + "/" == "" + (c + "/") + r + f + u by {
      PathEmpty(d);
      PathLayout(d);
    }
    assert p + "/" == c + tail by {
      assert "" + (c + "/") == c + "/";
      Associative(c, "/", r);
      Associative(c, "/" + r, f);
      Associative(c, "/" + r + f, u);
    }
    assert p[..|c|] == (p + "/")[..|c|];
  }

  /** A path with a truthy url ends in it, after each other truthy segment and its `/`. */
  lemma PathEndsWithUrl(d: Directives)
    requires Truthy(d.url)
    ensures Path(d) == Slot('/', d.trim) + Slot('/', d.crop) + Slot('/', d.resize)
                       + Slot('/', Some(FiltersSegment(d.filters))) + d.url.value
  {
    PathEmpty(d);
    PathLayout(d);
    var p := Path(d);
    var head := Slot('/', d.trim) + Slot('/', d.crop) + Slot('/', d.resize) + Slot('/', Some(FiltersSegment(d.filters)));
    var u := d.url.value;
    assert p + "/" == (head + u) + "/";
    assert p == (p + "/")[..|p|];
    assert head + u == ((head + u) + "/")[..|head + u|];
  }

  // Partners: reading the directives back.

  function ParseDimensions(s: string): Option<(int, int)> {
    var parts := Explode('x', s);
    if |parts| != 2 then None
    else match (ParseInt(parts[0]), ParseInt(parts[1]))
      case (Some(w), Some(h)) => Some((w, h))
      case _ => None
  }

  function ParseCrop(s: string): Option<(int, int, int, int)> {
    var corners := Explode(':', s);
    if |corners| != 2 then None
    else match (ParseDimensions(corners[0]), ParseDimensions(corners[1]))
      case (Some(tl), Some(br)) => Some((tl.0, tl.1, br.0, br.1))
      case _ => None
  }

  function ParseResize(s: string): Option<(Fit, int, int)> {
    var parts := Explode('/', s);
    var fit :=
      if |parts| == 1 then Some(Plain)
      else if |parts| == 2 && parts[0] == "fit-in" then Some(FitIn)
      else if |parts| == 2 && parts[0] == "full-fit-in" then Some(FullFitIn)
      else None;
    match (fit, ParseDimensions(parts[|parts| - 1]))
    case (Some(f), Some(wh)) => Some((f, wh.0, wh.1))
    case _ => None
  }

  /** The pieces of a trim directive that are present. */
  function Present(v: Option<string>): seq<string> {
    if Truthy(v) then [v.value] else []
  }

  lemma DimensionsRoundTrip(width: int, height: int)
    ensures ParseDimensions(Dimensions(width, height)) == Some((width, height))
    ensures ':' !in Dimensions(width, height) && '/' !in Dimensions(width, height)
  {
    var w, h := IntToString(width), IntToString(height);
    IntToStringHasNo(width, 'x');
    IntToStringHasNo(height, 'x');
    assert Dimensions(width, height) == Implode('x', [w, h]);
    ExplodeImplode('x', [w, h]);
    IntRoundTrip(width);
    IntRoundTrip(height);
    IntToStringHasNo(width, ':');
    IntToStringHasNo(height, ':');
    IntToStringHasNo(width, '/');
    IntToStringHasNo(height, '/');
  }

  /** The crop directive determines the four corners it was written from. */
  lemma CropRoundTrip(left: int, top: int, right: int, bottom: int)
    ensures ParseCrop(CropSpec(left, top, right, bottom)) == Some((left, top, right, bottom))
  {
    var tl, br := Dimensions(left, top), Dimensions(right, bottom);
    DimensionsRoundTrip(left, top);
    DimensionsRoundTrip(right, bottom);
    assert CropSpec(left, top, right, bottom) == Implode(':', [tl, br]);
    ExplodeImplode(':', [tl, br]);
  }

  /** The resize field determines which of the three setters wrote it and with which sizes. */
  lemma ResizeRoundTrip(fit: Fit, width: int, height: int)
    ensures ParseResize(ResizeSpec(fit, width, height)) == Some((fit, width, height))
  {
    var dims := Dimensions(width, height);
    DimensionsRoundTrip(width, height);
    if fit == Plain {
      assert Explode('/', ResizeSpec(fit, width, height)) == [dims] by {
        assert ResizeSpec(fit, width, height) == dims;
        ExplodeNoGlue('/', dims);
      }
    } else {
      PrefixedSpec(fit, dims);
    }
  }

  /** `fit-in/` and `full-fit-in/` are a name and a `/` before the sizes. */
  lemma PrefixedSpec(fit: Fit, dims: string)
    requires fit != Plain && '/' !in dims
    ensures var parts := Explode('/', FitPrefix(fit) + dims);
      |parts| == 2 && parts[1] == dims && (parts[0] == "fit-in" <==> fit == FitIn) && (parts[0] == "full-fit-in" <==> fit == FullFitIn)
  {
    var name := if fit == FitIn then "fit-in" else "full-fit-in";
    assert FitPrefix(fit) == name + "/";
    assert FitPrefix(fit) + dims == Implode('/', [name, dims]);
    ExplodeImplode('/', [name, dims]);
  }

  /**
   * The trim directive is `trim`, then the orientation if truthy, then the
   * tolerance if truthy, each after a colon and in that order.
   */
  lemma TrimFields(orientation: Option<string>, tolerance: Option<string>)
    requires orientation.Some? ==> ':' !in orientation.value
    requires tolerance.Some? ==> ':' !in tolerance.value
    ensures Explode(':', TrimSpec(orientation, tolerance)) == ["trim"] + Present(orientation) + Present(tolerance)
  {
    var pieces := ["trim"] + Present(orientation) + Present(tolerance);
    TrimJoin(orientation, tolerance);
    assert forall i :: 0 <= i < |pieces| ==> ':' !in pieces[i] by {
      assert forall i :: 0 <= i < |pieces| ==>
        pieces[i] == "trim" || pieces[i] in Present(orientation) || pieces[i] in Present(tolerance);
    }
    ExplodeImplode(':', pieces);
  }

  /** The trim directive is the present pieces joined by colons. */
  lemma TrimJoin(orientation: Option<string>, tolerance: Option<string>)
    ensures TrimSpec(orientation, tolerance) == Implode(':', ["trim"] + Present(orientation) + Present(tolerance))
  {
    var head := ["trim"] + Present(orientation);
    assert Implode(':', ["trim"]) == "trim";
    assert Implode(':', head) == "trim" + Suffix(orientation) by {
      if Truthy(orientation) {
        ImplodeSnoc(':', ["trim"], orientation.value);
      } else {
        assert head == ["trim"];
      }
    }
    if Truthy(tolerance) {
      ImplodeSnoc(':', head, tolerance.value);
    } else {
      assert head + Present(tolerance) == head;
    }
  }

  /** A filter call whose name has no `(` and whose arguments have no `,` or `(` gives back its name and arguments. */
  lemma FilterCallFields(name: string, args: seq<string>)
    requires '(' !in name
    requires |args| >= 1
    requires forall i :: 0 <= i < |args| ==> ',' !in args[i] && '(' !in args[i]
    ensures var parts := Explode('(', FilterCall(name, args));
      |parts| == 2 && parts[0] == name &&
      parts[1] == Implode(',', args) + ")" &&
      Explode(',', Implode(',', args)) == args
  {
    var inner := Implode(',', args);
    ExplodeImplode(',', args);
    assert '(' !in inner by {
      ImplodeExplode(',', inner);
      NoCharInImplode('(', ',', args);
    }
    assert FilterCall(name, args) == Implode('(', [name, inner + ")"]);
    ExplodeImplode('(', [name, inner + ")"]);
  }

  lemma {:induction false} NoCharInImplode(c: char, glue: char, pieces: seq<string>)
    requires c != glue
    requires forall i :: 0 <= i < |pieces| ==> c !in pieces[i]
    ensures c !in Implode(glue, pieces)
    decreases |pieces|
  {
    if |pieces| > 1 {
      NoCharInImplode(c, glue, pieces[1..]);
    }
  }

  /** The filters segment lists every filter call, in the order they were added. */
  lemma FiltersFields(filters: seq<string>)
    requires |filters| >= 1
    requires forall i :: 0 <= i < |filters| ==> ':' !in filters[i]
    ensures Explode(':', FiltersSegment(filters)) == ["filters"] + filters
  {
    var pieces := ["filters"] + filters;
    assert pieces[1..] == filters;
    assert FiltersSegment(filters) == Implode(':', pieces);
    ExplodeImplode(':', pieces);
  }

  /** Adding a filter appends `:` and its call to the segment; earlier calls stay in front. */
  lemma FiltersAppend(filters: seq<string>, call: string)
    ensures FiltersSegment(filters + [call]) ==
      (if |filters| == 0 then "filters:" + call else FiltersSegment(filters) + ":" + call)
  {
    if |filters| > 0 {
      ImplodeSnoc(':', filters, call);
    }
  }

  /** Every directive the builder writes is truthy, so `array_filter` keeps it. */
  lemma DirectivesTruthy(left: int, top: int, right: int, bottom: int, fit: Fit, width: int, height: int,
                         orientation: Option<string>, tolerance: Option<string>, filters: seq<string>)
    ensures Truthy(Some(CropSpec(left, top, right, bottom)))
    ensures Truthy(Some(ResizeSpec(fit, width, height)))
    ensures Truthy(Some(TrimSpec(orientation, tolerance)))
    ensures Truthy(Some(FiltersSegment(filters))) <==> |filters| > 0
  {
    assert |CropSpec(left, top, right, bottom)| >= 2;
    assert |ResizeSpec(fit, width, height)| >= 2;
    assert TrimSpec(orientation, tolerance)[..4] == "trim";
    if |filters| > 0 {
      assert FiltersSegment(filters)[..8] == "filters:";
    }
  }

  lemma ConcatFive(a: string, b: string, c: string, e: string, u: string)
    ensures Concat([a, b, c, e, u]) == a + b + c + e + u
  {
    var xs := [a, b, c, e, u];
    assert xs[1..][1..][1..][1..][1..] == [];
    assert Concat(xs[1..][1..][1..][1..]) == u;
    assert Concat(xs[1..][1..][1..]) == e + u;
    assert Concat(xs[1..][1..]) == c + (e + u);
    assert Concat(xs[1..]) == b + (c + (e + u));
  }

  lemma ArrayFilterCons(x: Option<string>, xs: seq<Option<string>>)
    ensures ArrayFilter([x] + xs) == Present(x) + ArrayFilter(xs)
  {
    assert ([x] + xs)[1..] == xs;
  }

  /**
   * `Path` with `array_filter` worked out field by field: the path joins with
   * `/` the segments that are present, in the fixed order trim, crop, resize,
   * filters, url. `PathEmpty` and `PathLayout` state what this means for the text.
   */
  lemma PathSegments(d: Directives)
    ensures Path(d) == Implode('/', Present(d.trim) + Present(d.crop) + Present(d.resize)
                                    + Present(Some(FiltersSegment(d.filters))) + Present(d.url))
  {
    ArrayFilterFive(d.trim, d.crop, d.resize, Some(FiltersSegment(d.filters)), d.url);
  }

  lemma ArrayFilterFive(a: Option<string>, b: Option<string>, c: Option<string>, e: Option<string>, u: Option<string>)
    ensures ArrayFilter([a, b, c, e, u]) == Present(a) + Present(b) + Present(c) + Present(e) + Present(u)
  {
    var s4 := [u];
    var s3 := [e] + s4;
    var s2 := [c] + s3;
    var s1 := [b] + s2;
    assert [a, b, c, e, u] == [a] + s1;
    ArrayFilterCons(u, []);
    assert s4 == [u] + [];
    ArrayFilterCons(e, s4);
    ArrayFilterCons(c, s3);
    ArrayFilterCons(b, s2);
    ArrayFilterCons(a, s1);
    var pa, pb, pc, pe, pu := Present(a), Present(b), Present(c), Present(e), Present(u);
    assert ArrayFilter(s4) == pu;
    assert ArrayFilter(s3) == pe + pu;
    assert ArrayFilter(s2) == pc + (pe + pu);
    assert ArrayFilter(s1) == pb + (pc + (pe + pu));
    Associative(pa, pb, pc + (pe + pu));
    Associative(pa + pb, pc, pe + pu);
    Associative(pa + pb + pc, pe, pu);
  }

  /**
   * Joining sequences is associative. Calling this for the few regroupings
   * a proof needs is much cheaper for the solver than leaving it to find them.
   */
  lemma Associative<T>(x: seq<T>, y: seq<T>, z: seq<T>)
    ensures x + (y + z) == x + y + z
  {
  }

  /** The path is empty exactly when no segment is truthy. */
  lemma PathEmpty(d: Directives)
    ensures Path(d) == "" <==>
      !Truthy(d.trim) && !Truthy(d.crop) && !Truthy(d.resize) && d.filters == [] && !Truthy(d.url)
  {
    var xs := Segments(d);
    DirectivesTruthy(0, 0, 0, 0, Plain, 0, 0, None, None, d.filters);
    ArrayFilterEmpty(xs);
    ImplodeEmpty('/', ArrayFilter(xs));
    assert (forall i :: 0 <= i < |xs| ==> !Truthy(xs[i])) <==>
      !Truthy(xs[0]) && !Truthy(xs[1]) && !Truthy(xs[2]) && !Truthy(xs[3]) && !Truthy(xs[4]);
  }

  /** With nothing set the path is empty, so the URL ends in the `/` after the signature segment. */
  lemma EmptyUrl(server: string, secret: Option<string>, d: Directives, mac: Mac)
    requires !Truthy(d.trim) && !Truthy(d.crop) && !Truthy(d.resize) && d.filters == [] && !Truthy(d.url)
    ensures var r := BuildUrl(server, secret, d, mac);
      r == server + "/" + Signature(secret, "", mac) + "/" && r[|r| - 1] == '/'
  {
    PathEmpty(d);
  }

  /**
   * A non-empty path followed by `/` is each truthy segment followed by `/`,
   * in the fixed order trim, crop, resize, filters, url, whatever order the
   * setters were called in.
   */
  lemma PathLayout(d: Directives)
    requires Path(d) != ""
    ensures Path(d) + "/" == Slot('/', d.trim) + Slot('/', d.crop) + Slot('/', d.resize)
                             + Slot('/', Some(FiltersSegment(d.filters))) + Slot('/', d.url)
  {
    var xs := Segments(d);
    ImplodeTerminated('/', ArrayFilter(xs));
    FilteredSlots('/', xs);
    var a, b, c, e, u := Slot('/', d.trim), Slot('/', d.crop), Slot('/', d.resize),
                         Slot('/', Some(FiltersSegment(d.filters))), Slot('/', d.url);
    assert Slots('/', xs) == [a, b, c, e, u];
    ConcatFive(a, b, c, e, u);
  }
}
