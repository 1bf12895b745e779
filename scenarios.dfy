/**
 * Clients of the builder. Eight methods reproduce the URLs the builder's own
 * test suite expects: each drives a fresh builder the way the test does,
 * promises the expected string and returns both `build()` and `__toString()`,
 * as the test compares both. Three more state behaviour of `build()` itself:
 * the order of the setter calls does not matter (`CallOrderScenario`), the
 * last resize form wins with its default sizes (`LastWriteScenario`), and an
 * empty builder with the falsy secret `"0"` gives `server/unsafe/`
 * (`EmptyScenario`). `Unsigned` is the lemma they share.
 */
module BuilderScenarios {
  import opened Php
  import opened Decimal
  import opened Signing
  import opened ThumborPath
  import opened Thumbor

  const Server := "https://cdn.example.com"
  const Image := "https://dummyimage.com/600x400.jpg"
  const Gif := "https://www.sample-videos.com/gif/2.gif"

  /** The directive segments before the url, each followed by `/`. */
  function Head(d: Directives): string {
    Slot('/', d.trim) + Slot('/', d.crop) + Slot('/', d.resize) + Slot('/', Some(FiltersSegment(d.filters)))
  }

  /**
   * An unsigned URL: the server, `/unsafe/`, the directive segments (each
   * followed by `/`) and the url. It is stated for the tests' one server,
   * `Server`, as every scenario here uses it.
   */
  lemma Unsigned(secret: Option<string>, d: Directives, mac: Mac, segments: string)
    requires !Truthy(secret) && Truthy(d.url) && Head(d) == segments + "/"
    ensures BuildUrl(Server, secret, d, mac) == Server + "/unsafe/" + segments + "/" + d.url.value
  {
    var u := d.url.value;
    assert Path(d) == (segments + "/") + u by {
      PathEndsWithUrl(d);
    }
    var prefix := Server + "/" + Unsafe + "/";
    assert prefix == Server + "/unsafe/" by {
      Associative(Server, "/", Unsafe);
      Associative(Server, "/" + Unsafe, "/");
      assert "/" + Unsafe + "/" == "/unsafe/";
    }
    Associative(prefix, segments + "/", u);
    Associative(prefix, segments, "/");
  }

  /** The numbers the test data uses, written in decimal. */
  lemma Numbers()
    ensures IntToString(0) == "0" && IntToString(100) == "100" && IntToString(200) == "200"
    ensures IntToString(300) == "300" && IntToString(400) == "400"
  {
    assert NatToString(1) == "1" && NatToString(2) == "2" && NatToString(3) == "3" && NatToString(4) == "4";
    assert NatToString(10) == "10" && NatToString(20) == "20" && NatToString(30) == "30" && NatToString(40) == "40";
  }

  /** `crop(100, 200, 300, 400)` on an unsigned builder. */
  method CropScenario(mac: Mac) returns (r: string, text: string)
    ensures r == Server + "/unsafe/" + "100x200:300x400" + "/" + Image
    ensures text == r
  {
    var b := new Builder(Server, Some(""));
    var _ := b.Url(Image);
    var _ := b.Crop(100, 200, 300, 400);
    r := b.Build(mac);
    text := b.ToString(mac);
    CropDirective();
    CropUrl(mac);
  }

  /** The directive `crop(100, 200, 300, 400)` writes. */
  lemma CropDirective()
    ensures CropSpec(100, 200, 300, 400) == "100x200:300x400"
  {
    Numbers();
  }

  /** The builder's fields after the test's calls. */
  const CropTest := Directives(None, Some("100x200:300x400"), None, [], Some(Image))

  lemma CropUrl(mac: Mac)
    ensures BuildUrl(Server, Some(""), CropTest, mac) == Server + "/unsafe/" + "100x200:300x400" + "/" + Image
  {
    CropHead();
    Unsigned(Some(""), CropTest, mac, "100x200:300x400");
  }

  lemma CropHead()
    ensures Head(CropTest) == "100x200:300x400" + "/"
  {
    var d := CropTest;
    assert Slot('/', d.trim) == "";
    assert Slot('/', d.crop) == "100x200:300x400" + "/";
    assert Slot('/', d.resize) == "";
    assert Slot('/', Some(FiltersSegment(d.filters))) == "";
  }

  /** `resize(100, 200)` on an unsigned builder. */
  method ResizeScenario(mac: Mac) returns (r: string, text: string)
    ensures r == Server + "/unsafe/" + "100x200" + "/" + Image
    ensures text == r
  {
    var b := new Builder(Server, Some(""));
    var _ := b.Url(Image);
    var _ := b.Resize(100, 200);
    r := b.Build(mac);
    text := b.ToString(mac);
    ResizeDirective();
    ResizeUrl(mac);
  }

  /** The directive `resize(100, 200)` writes. */
  lemma ResizeDirective()
    ensures ResizeSpec(Plain, 100, 200) == "100x200"
  {
    Numbers();
  }

  /** The builder's fields after the test's calls. */
  const ResizeTest := Directives(None, None, Some("100x200"), [], Some(Image))

  lemma ResizeUrl(mac: Mac)
    ensures BuildUrl(Server, Some(""), ResizeTest, mac) == Server + "/unsafe/" + "100x200" + "/" + Image
  {
    ResizeHead();
    Unsigned(Some(""), ResizeTest, mac, "100x200");
  }

  lemma ResizeHead()
    ensures Head(ResizeTest) == "100x200" + "/"
  {
    var d := ResizeTest;
    assert Slot('/', d.trim) == "";
    assert Slot('/', d.crop) == "";
    assert Slot('/', d.resize) == "100x200" + "/";
    assert Slot('/', Some(FiltersSegment(d.filters))) == "";
  }

  /** `fitIn(100, 200)` on an unsigned builder. */
  method FitInScenario(mac: Mac) returns (r: string, text: string)
    ensures r == Server + "/unsafe/" + "fit-in/100x200" + "/" + Image
    ensures text == r
  {
    var b := new Builder(Server, Some(""));
    var _ := b.Url(Image);
    var _ := b.FitIn(100, 200);
    r := b.Build(mac);
    text := b.ToString(mac);
    FitInDirective();
    FitInUrl(mac);
  }

  /** The directive `fitIn(100, 200)` writes. */
  lemma FitInDirective()
    ensures ResizeSpec(Fit.FitIn, 100, 200) == "fit-in/100x200"
  {
    Numbers();
  }

  /** The builder's fields after the test's calls. */
  const FitInTest := Directives(None, None, Some("fit-in/100x200"), [], Some(Image))

  lemma FitInUrl(mac: Mac)
    ensures BuildUrl(Server, Some(""), FitInTest, mac) == Server + "/unsafe/" + "fit-in/100x200" + "/" + Image
  {
    FitInHead();
    Unsigned(Some(""), FitInTest, mac, "fit-in/100x200");
  }

  lemma FitInHead()
    ensures Head(FitInTest) == "fit-in/100x200" + "/"
  {
    var d := FitInTest;
    assert Slot('/', d.trim) == "";
    assert Slot('/', d.crop) == "";
    assert Slot('/', d.resize) == "fit-in/100x200" + "/";
    assert Slot('/', Some(FiltersSegment(d.filters))) == "";
  }

  /** `fullFitIn(100, 200)` on an unsigned builder. */
  method FullFitInScenario(mac: Mac) returns (r: string, text: string)
    ensures r == Server + "/unsafe/" + "full-fit-in/100x200" + "/" + Image
    ensures text == r
  {
    var b := new Builder(Server, Some(""));
    var _ := b.Url(Image);
    var _ := b.FullFitIn(100, 200);
    r := b.Build(mac);
    text := b.ToString(mac);
    FullFitInDirective();
    FullFitInUrl(mac);
  }

  /** The directive `fullFitIn(100, 200)` writes. */
  lemma FullFitInDirective()
    ensures ResizeSpec(Fit.FullFitIn, 100, 200) == "full-fit-in/100x200"
  {
    Numbers();
  }

  /** The builder's fields after the test's calls. */
  const FullFitInTest := Directives(None, None, Some("full-fit-in/100x200"), [], Some(Image))

  lemma FullFitInUrl(mac: Mac)
    ensures BuildUrl(Server, Some(""), FullFitInTest, mac) == Server + "/unsafe/" + "full-fit-in/100x200" + "/" + Image
  {
    FullFitInHead();
    Unsigned(Some(""), FullFitInTest, mac, "full-fit-in/100x200");
  }

  lemma FullFitInHead()
    ensures Head(FullFitInTest) == "full-fit-in/100x200" + "/"
  {
    var d := FullFitInTest;
    assert Slot('/', d.trim) == "";
    assert Slot('/', d.crop) == "";
    assert Slot('/', d.resize) == "full-fit-in/100x200" + "/";
    assert Slot('/', Some(FiltersSegment(d.filters))) == "";
  }

  /** `trim()` with no arguments on an unsigned builder. */
  method TrimScenario(mac: Mac) returns (r: string, text: string)
    ensures r == Server + "/unsafe/" + "trim" + "/" + Image
    ensures text == r
  {
    var b := new Builder(Server, Some(""));
    var _ := b.Url(Image);
    var _ := b.Trim();
    r := b.Build(mac);
    text := b.ToString(mac);
    TrimDirective();
    TrimUrl(mac);
  }

  /** The directive `trim()` with no arguments writes. */
  lemma TrimDirective()
    ensures TrimSpec(None, None) == "trim"
  {
  }

  /** The builder's fields after the test's calls. */
  const TrimTest := Directives(Some("trim"), None, None, [], Some(Image))

  lemma TrimUrl(mac: Mac)
    ensures BuildUrl(Server, Some(""), TrimTest, mac) == Server + "/unsafe/" + "trim" + "/" + Image
  {
    TrimHead();
    Unsigned(Some(""), TrimTest, mac, "trim");
  }

  lemma TrimHead()
    ensures Head(TrimTest) == "trim" + "/"
  {
    var d := TrimTest;
    assert Slot('/', d.trim) == "trim" + "/";
    assert Slot('/', d.crop) == "";
    assert Slot('/', d.resize) == "";
    assert Slot('/', Some(FiltersSegment(d.filters))) == "";
  }

  /** `trim('top-left')` on an unsigned builder. */
  method TrimOrientationScenario(mac: Mac) returns (r: string, text: string)
    ensures r == Server + "/unsafe/" + "trim:top-left" + "/" + Image
    ensures text == r
  {
    var b := new Builder(Server, Some(""));
    var _ := b.Url(Image);
    var _ := b.Trim(Some("top-left"));
    r := b.Build(mac);
    text := b.ToString(mac);
    TrimOrientationDirective();
    TrimOrientationUrl(mac);
  }

  /** The directive `trim('top-left')` writes. */
  lemma TrimOrientationDirective()
    ensures TrimSpec(Some("top-left"), None) == "trim:top-left"
  {
  }

  /** The builder's fields after the test's calls. */
  const TrimOrientationTest := Directives(Some("trim:top-left"), None, None, [], Some(Image))

  lemma TrimOrientationUrl(mac: Mac)
    ensures BuildUrl(Server, Some(""), TrimOrientationTest, mac) == Server + "/unsafe/" + "trim:top-left" + "/" + Image
  {
    TrimOrientationHead();
    Unsigned(Some(""), TrimOrientationTest, mac, "trim:top-left");
  }

  lemma TrimOrientationHead()
    ensures Head(TrimOrientationTest) == "trim:top-left" + "/"
  {
    var d := TrimOrientationTest;
    assert Slot('/', d.trim) == "trim:top-left" + "/";
    assert Slot('/', d.crop) == "";
    assert Slot('/', d.resize) == "";
    assert Slot('/', Some(FiltersSegment(d.filters))) == "";
  }

  /** `filter('gifv', 'mp4')` on an unsigned builder. */
  method FilterScenario(mac: Mac) returns (r: string, text: string)
    ensures r == Server + "/unsafe/" + "filters:gifv(mp4)" + "/" + Gif
    ensures text == r
  {
    var b := new Builder(Server, Some(""));
    var _ := b.Url(Gif);
    var _ := b.Filter("gifv", ["mp4"]);
    r := b.Build(mac);
    text := b.ToString(mac);
    FilterDirective();
    FilterUrl(mac);
  }

  /** The directive `filter('gifv', 'mp4')` writes. */
  lemma FilterDirective()
    ensures FilterCall("gifv", ["mp4"]) == "gifv(mp4)"
  {
  }

  /** The builder's fields after the test's calls. */
  const FilterTest := Directives(None, None, None, ["gifv(mp4)"], Some(Gif))

  lemma FilterUrl(mac: Mac)
    ensures BuildUrl(Server, Some(""), FilterTest, mac) == Server + "/unsafe/" + "filters:gifv(mp4)" + "/" + Gif
  {
    FilterHead();
    Unsigned(Some(""), FilterTest, mac, "filters:gifv(mp4)");
  }

  lemma FilterHead()
    ensures Head(FilterTest) == "filters:gifv(mp4)" + "/"
  {
    var d := FilterTest;
    assert Slot('/', d.trim) == "";
    assert Slot('/', d.crop) == "";
    assert Slot('/', d.resize) == "";
    assert FiltersSegment(d.filters) == "filters:" + "gifv(mp4)";
    assert "filters:" + "gifv(mp4)" == "filters:gifv(mp4)";
    assert Slot('/', Some(FiltersSegment(d.filters))) == "filters:gifv(mp4)" + "/";
  }

  /** With the secret `abc` the segment is the signature of the path under that key. */
  method SignedResizeScenario(mac: Mac) returns (r: string, text: string)
    ensures r == Server + "/" + Sign(mac, "100x200" + "/" + Image, "abc") + "/" + "100x200" + "/" + Image
    ensures text == r
  {
    var b := new Builder(Server, Some("abc"));
    var _ := b.Url(Image);
    var _ := b.Resize(100, 200);
    r := b.Build(mac);
    text := b.ToString(mac);
    ResizeDirective();
    SignedResizeUrl(mac);
  }

  lemma SignedResizeUrl(mac: Mac)
    ensures BuildUrl(Server, Some("abc"), ResizeTest, mac)
            == Server + "/" + Sign(mac, "100x200" + "/" + Image, "abc") + "/" + "100x200" + "/" + Image
  {
    PathEndsWithUrl(ResizeTest);
    ResizeHead();
    var p := "100x200" + "/" + Image;
    assert Path(ResizeTest) == p;
    assert Server + "/" + Sign(mac, p, "abc") + "/" + p
        == Server + "/" + Sign(mac, p, "abc") + "/" + "100x200" + "/" + Image;
  }

  /** Directive call order does not matter: crop then resize equals resize then crop. */
  method CallOrderScenario(mac: Mac, left: int, top: int, right: int, bottom: int, width: int, height: int)
    returns (first: string, second: string)
    ensures first == second
  {
    var b := new Builder(Server, Some("key"));
    var _ := b.Url(Image);
    var _ := b.Crop(left, top, right, bottom);
    var _ := b.Resize(width, height);
    var c := new Builder(Server, Some("key"));
    var _ := c.Resize(width, height);
    var _ := c.Crop(left, top, right, bottom);
    var _ := c.Url(Image);
    first := b.Build(mac);
    second := c.Build(mac);
  }

  /** The last of `resize`, `fitIn` and `fullFitIn` wins; filters accumulate in call order. */
  method LastWriteScenario(mac: Mac) returns (r: string, text: string)
    ensures r == Server + "/unsafe/" + "fit-in/0x0/filters:a():b()" + "/" + Image
    ensures text == r
  {
    var b := new Builder(Server);
    var _ := b.Url(Image);
    var _ := b.FullFitIn(300, 200);
    var _ := b.Filter("a", []);
    var _ := b.Resize(100);
    var _ := b.Filter("b", []);
    var _ := b.FitIn();
    r := b.Build(mac);
    text := b.ToString(mac);
    LastWriteDirective();
    LastWriteUrl(mac);
  }

  lemma LastWriteDirective()
    ensures ResizeSpec(Fit.FitIn, 0, 0) == "fit-in/0x0"
    ensures FilterCall("a", []) == "a()" && FilterCall("b", []) == "b()"
  {
    Numbers();
  }

  const LastWriteTest := Directives(None, None, Some("fit-in/0x0"), ["a()", "b()"], Some(Image))

  lemma LastWriteUrl(mac: Mac)
    ensures BuildUrl(Server, None, LastWriteTest, mac)
            == Server + "/unsafe/" + "fit-in/0x0/filters:a():b()" + "/" + Image
  {
    LastWriteHead();
    Unsigned(None, LastWriteTest, mac, "fit-in/0x0/filters:a():b()");
  }

  lemma LastWriteHead()
    ensures Head(LastWriteTest) == "fit-in/0x0/filters:a():b()" + "/"
  {
    var d := LastWriteTest;
    assert Slot('/', d.trim) == "";
    assert Slot('/', d.crop) == "";
    assert Slot('/', d.resize) == "fit-in/0x0" + "/";
    assert FiltersSegment(d.filters) == "filters:" + ("a()" + ":" + "b()") by {
      assert d.filters[1..] == ["b()"];
    }
    assert "filters:" + ("a()" + ":" + "b()") == "filters:a():b()";
    assert Slot('/', Some(FiltersSegment(d.filters))) == "filters:a():b()" + "/";
    assert "fit-in/0x0" + "/" + ("filters:a():b()" + "/") == "fit-in/0x0/filters:a():b()" + "/";
  }

  /** Nothing set: the path is empty and the URL ends in `/`; `"0"` is a falsy secret. */
  method EmptyScenario(mac: Mac) returns (r: string, text: string)
    ensures r == Server + "/unsafe/"
    ensures text == r
  {
    var b := new Builder(Server, Some("0"));
    r := b.Build(mac);
    text := b.ToString(mac);
    PathEmpty(b.State());
    assert "/" + Unsafe + "/" + "" == "/unsafe/";
  }
}
