/**
 * `Thumbor\Builder`: a fluent, mutable accumulator of image directives for one
 * source image. Each setter overwrites one field (the filters are appended to)
 * and returns the builder itself; `Build` reads the fields and writes the URL.
 */
module Thumbor {
  import opened Php
  import opened Signing
  import opened ThumborPath

  class Builder {
    /** The Thumbor server, e.g. `https://cdn.example.com`; fixed at construction. */
    const server: string
    /** The security key; a falsy key means unsigned (`unsafe`) URLs. */
    const secret: Option<string>

    var url: Option<string>
    var crop: Option<string>
    var resize: Option<string>
    var trim: Option<string>
    var filters: seq<string>

    /** The directive fields as one value. */
    function State(): Directives
      reads this
    {
      Directives(trim, crop, resize, filters, url)
    }

    /** `new Builder($server, $secret)`. */
    constructor (server: string, secret: Option<string> := None)
      ensures this.server == server && this.secret == secret
      ensures State() == Unset
    {
      this.server := server;
      this.secret := secret;
      url, crop, resize, trim, filters := None, None, None, None, [];
    }

    /** `crop($left, $top, $right, $bottom)`: only the crop field changes. */
    method Crop(left: int, top: int, right: int, bottom: int) returns (self: Builder)
      modifies this
      ensures self == this
      ensures State() == old(State()).(crop := Some(CropSpec(left, top, right, bottom)))
    {
      crop := Some(CropSpec(left, top, right, bottom));
      self := this;
    }

    /** `filter($filter, ...$args)`: one call is appended to the filters; nothing else changes. */
    method Filter(name: string, args: seq<string>) returns (self: Builder)
      modifies this
      ensures self == this
      ensures State() == old(State()).(filters := old(filters) + [FilterCall(name, args)])
      ensures |filters| == |old(filters)| + 1 && filters[..|old(filters)|] == old(filters)
    {
      filters := filters + [FilterCall(name, args)];
      self := this;
    }

    /** `fitIn($width = 0, $height = 0)`: the resize field becomes `fit-in/{w}x{h}`. */
    method FitIn(width: int := 0, height: int := 0) returns (self: Builder)
      modifies this
      ensures self == this
      ensures State() == old(State()).(resize := Some(ResizeSpec(Fit.FitIn, width, height)))
    {
      resize := Some(ResizeSpec(Fit.FitIn, width, height));
      self := this;
    }

    /** `fullFitIn($width = 0, $height = 0)`: the resize field becomes `full-fit-in/{w}x{h}`. */
    method FullFitIn(width: int := 0, height: int := 0) returns (self: Builder)
      modifies this
      ensures self == this
      ensures State() == old(State()).(resize := Some(ResizeSpec(Fit.FullFitIn, width, height)))
    {
      resize := Some(ResizeSpec(Fit.FullFitIn, width, height));
      self := this;
    }

    /** `resize($width = 0, $height = 0)`: the resize field becomes `{w}x{h}`. */
    method Resize(width: int := 0, height: int := 0) returns (self: Builder)
      modifies this
      ensures self == this
      ensures State() == old(State()).(resize := Some(ResizeSpec(Plain, width, height)))
    {
      resize := Some(ResizeSpec(Plain, width, height));
      self := this;
    }

    /** `trim($orientation = null, $tolerance = null)`: only the trim field changes. */
    method Trim(orientation: Option<string> := None, tolerance: Option<string> := None) returns (self: Builder)
      modifies this
      ensures self == this
      ensures State() == old(State()).(trim := Some(TrimSpec(orientation, tolerance)))
    {
      trim := Some(TrimSpec(orientation, tolerance));
      self := this;
    }

    /** `url($url)`: only the source image URL changes. */
    method Url(url: string) returns (self: Builder)
      modifies this
      ensures self == this
      ensures State() == old(State()).(url := Some(url))
    {
      this.url := Some(url);
      self := this;
    }

    /**
     * `build()`: the server, the signature segment and the path, joined by `/`.
     * `mac` stands for `hash_hmac('sha1', …, true)`. Being a function, it
     * changes nothing, so successive calls agree.
     */
    function Build(mac: Mac): (r: string)
      reads this
      ensures r == server + "/" + Signature(secret, Path(State()), mac) + "/" + Path(State())
    {
      BuildUrl(server, secret, State(), mac)
    }

    /** `__toString()`: the same string as `build()`. */
    function ToString(mac: Mac): (r: string)
      reads this
      ensures r == Build(mac)
    {
      Build(mac)
    }
  }
}
