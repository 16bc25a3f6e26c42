/** `static_map_generator/renderer.py`: the renderer registry and what each
    renderer does with its keyword arguments. Every library call (HTTP, the
    WKT-to-GeoJSON converter, the image and map engines) is outside the model:
    a renderer's result is the request it hands to that library, or the
    exception it raises first. */
module Renderer {
  import opened PyValues
  import Utils

  // ===== Renderer.factory and the type() methods =====

  /** One renderer class each. */
  datatype Kind = Wms | Wkt | Geojson | Text | Logo | Scale | Legend | Default

  /** `type()`: the tag a renderer reports for itself. */
  function TypeTag(k: Kind): string {
    match k
    case Wms => "wms"
    case Wkt => "wkt"
    case Geojson => "geojson"
    case Text => "text"
    case Logo => "logo"
    case Scale => "scale"
    case Legend => "legend"
    case Default => "default"
  }

  /** The tags `factory` recognises. */
  const KnownTags: set<string> := {"wms", "wkt", "geojson", "text", "logo", "scale", "legend"}

  /** `Renderer.factory(type)`: total; a recognised tag gives the renderer that
      reports that tag, anything else gives the default renderer. */
  function Factory(tag: string): (k: Kind)
    ensures tag in KnownTags ==> TypeTag(k) == tag
    ensures tag !in KnownTags <==> k == Default
  {
    if tag == "wms" then Wms
    else if tag == "wkt" then Wkt
    else if tag == "geojson" then Geojson
    else if tag == "text" then Text
    else if tag == "logo" then Logo
    else if tag == "scale" then Scale
    else if tag == "legend" then Legend
    else Default
  }

  /** Every renderer is the one `factory` builds for its own tag, so no two
      renderers share a tag and "default" is not one of the recognised ones. */
  lemma FactoryOfTypeTag(k: Kind)
    ensures Factory(TypeTag(k)) == k
    ensures (TypeTag(k) in KnownTags) == (k != Default)
  {
  }

  // ===== the outside world =====

  /** What `requests.get` gives back: no connection, or a status and a body. */
  datatype Fetch = Unreachable | Response(status: int, content: Bytes)

  type Pixels = n: int | 0 < n witness 1

  datatype Size = Size(width: Pixels, height: Pixels)

  /** The collaborators a renderer calls: the HTTP client, the WKT-to-GeoJSON
      converter, whether the image library can decode a blob, and the pixel
      size of the packaged scale-bar image. */
  datatype Env = Env(
    get: (Value, Params) -> Fetch,
    toGeojson: Value -> Result<Value>,
    decodes: Bytes -> bool,
    scaleBar: Size)

  /** The image a figure is cut from before `position_figure` places it. */
  datatype Figure = Downloaded(blob: Bytes) | ScaleBarAsset

  /** A symbolizer of the vector renderer's style rule: a polygon fill, a
      line, or a point marker with the library's default look. */
  datatype Symbolizer =
    | PolygonFill(color: string, opacity: Value)
    | Line(color: string, width: real)
    | PointMarker

  /** What a successful `render` hands to the library that writes the file. */
  datatype Effect =
    | Wrote(filename: Value, content: Bytes)
    | Rasterized(width: Value, height: Value, srs: string, rule: seq<Symbolizer>, geojson: Value,
                 extent: seq<Value>, target: string, filetype: string)
    | Captioned(width: Value, height: Value, fontSize: Value, textColor: Value, text: Value,
                gravity: Value, filename: Value)
    | Positioned(figure: Figure, figureWidth: Value, figureHeight: Value, opacity: Value,
                 width: Value, height: Value, gravity: Value, filename: Value)

  /** The value a renderer ends up using for `key` after merging the caller's
      arguments over `defaults`. */
  function Setting(defaults: Params, kw: Params, key: string): Value
    requires key in defaults || key in kw
  {
    if key in kw then kw[key] else defaults[key]
  }

  /** `merge_dicts(defaults, kwargs)`: the caller's value wins on every key. */
  lemma WithDefaults(defaults: Params, kw: Params)
    ensures Utils.Merged([defaults, kw]).Keys == defaults.Keys + kw.Keys
    ensures forall key :: key in defaults || key in kw ==>
              Utils.Merged([defaults, kw])[key] == Setting(defaults, kw, key)
  {
    Utils.MergedPair(defaults, kw);
  }

  // ===== WmsRenderer =====

  /** The keys of the GetMap query that the WMS renderer builds itself. */
  const WmsKeys: set<string> :=
    {"layers", "transparent", "format", "service", "version", "request", "styles", "srs", "bbox", "width", "height"}

  /** The caller's arguments from which the GetMap query can be built. */
  predicate WmsArgsUsable(kw: Params) {
    && "layers" in kw
    && "filetype" in kw && kw["filetype"].Str?
    && "epsg" in kw
    && "bbox" in kw && Indexable(kw["bbox"], 4)
    && "width" in kw && "height" in kw
  }

  /** The GetMap query of WMS 1.1.0 that `WmsRenderer.render` builds: a
      transparent image in the caller's format, projection and size, over the
      caller's bounding box written as four comma-separated numbers. */
  function WmsQuery(kw: Params): (r: Result<Params>)
    ensures r.Ok? <==> WmsArgsUsable(kw)
    ensures "layers" !in kw ==> r == Err(KeyError("layers"))
    ensures r.Err? ==> r.error == TypeError || r.error == IndexError || (r.error.KeyError? && r.error.key !in kw)
    ensures r.Ok? ==> r.value.Keys == WmsKeys
    ensures r.Ok? ==> && r.value["service"] == Str("WMS")
                      && r.value["version"] == Str("1.1.0")
                      && r.value["request"] == Str("GetMap")
                      && r.value["transparent"] == Str("TRUE")
                      && r.value["styles"] == Str("")
                      && r.value["format"] == Str("image/" + kw["filetype"].s)
                      && r.value["srs"] == Str("EPSG:" + PyStr(kw["epsg"]))
                      && r.value["layers"] == kw["layers"]
                      && r.value["width"] == kw["width"]
                      && r.value["height"] == kw["height"]
                      && r.value["bbox"] == Str(BboxText(kw["bbox"]))
  {
    var layers :- Get(kw, "layers");
    var filetype :- Get(kw, "filetype");
    var format :- Concat("image/", filetype);
    var epsg :- Get(kw, "epsg");
    var bbox :- Get(kw, "bbox");
    var _ :- Index(bbox, 3);
    var width :- Get(kw, "width");
    var height :- Get(kw, "height");
    Ok(map[
      "layers" := layers,
      "transparent" := Str("TRUE"),
      "format" := format,
      "service" := Str("WMS"),
      "version" := Str("1.1.0"),
      "request" := Str("GetMap"),
      "styles" := Str(""),
      "srs" := Str("EPSG:" + PyStr(epsg)),
      "bbox" := Str(BboxText(bbox)),
      "width" := width,
      "height" := height])
  }

  /** `str(bbox[0]) + "," + str(bbox[1]) + "," + str(bbox[2]) + "," + str(bbox[3])`. */
  function BboxText(bbox: Value): string
    requires Indexable(bbox, 4)
  {
    PyStr(Index(bbox, 0).value) + "," + PyStr(Index(bbox, 1).value) + ","
      + PyStr(Index(bbox, 2).value) + "," + PyStr(Index(bbox, 3).value)
  }

  /** Four comma-free texts joined by commas split back into those four. */
  lemma SplitFour(t0: string, t1: string, t2: string, t3: string)
    requires ',' !in t0 && ',' !in t1 && ',' !in t2 && ',' !in t3
    ensures SplitCommas(t0 + "," + t1 + "," + t2 + "," + t3) == [t0, t1, t2, t3]
  {
    var tail2 := t2 + "," + t3;
    var tail1 := t1 + "," + tail2;
    assert t0 + "," + t1 + "," + t2 + "," + t3 == t0 + "," + tail1;
    calc {
      SplitCommas(t0 + "," + tail1);
      { SplitCommasJoin(t0, tail1); }
      [t0] + SplitCommas(tail1);
      { SplitCommasJoin(t1, tail2); }
      [t0] + ([t1] + SplitCommas(tail2));
      { SplitCommasJoin(t2, t3); SplitCommasPlain(t3); }
      [t0] + ([t1] + ([t2] + [t3]));
    }
  }

  /** A bounding box of four integers is sent as text from which exactly those
      four numbers, in order, read back. */
  lemma BboxTextRoundTrip(a: int, b: int, c: int, d: int, rest: seq<Value>)
    ensures var parts := SplitCommas(BboxText(List([Int(a), Int(b), Int(c), Int(d)] + rest)));
            && |parts| == 4
            && ParseInt(parts[0]) == a && ParseInt(parts[1]) == b
            && ParseInt(parts[2]) == c && ParseInt(parts[3]) == d
  {
    var bbox := List([Int(a), Int(b), Int(c), Int(d)] + rest);
    assert Index(bbox, 0).value == Int(a) && Index(bbox, 1).value == Int(b);
    assert Index(bbox, 2).value == Int(c) && Index(bbox, 3).value == Int(d);
    SplitFour(PyStr(Int(a)), PyStr(Int(b)), PyStr(Int(c)), PyStr(Int(d)));
  }

  /** The query actually sent: `merge_dicts(kwargs, params)`. Every argument
      of the caller goes along, but on a shared key the built WMS value wins. */
  function SentQuery(kw: Params): (q: Params)
    requires WmsArgsUsable(kw)
    ensures q.Keys == kw.Keys + WmsKeys
    ensures forall key :: key in kw && key !in WmsKeys ==> q[key] == kw[key]
    ensures forall key :: key in WmsKeys ==> q[key] == WmsQuery(kw).value[key]
  {
    Utils.MergedPair(kw, WmsQuery(kw).value);
    Utils.Merged([kw, WmsQuery(kw).value])
  }

  /** The bytes "xml". */
  const XmlMarker: Bytes := [0x78, 0x6D, 0x6C]

  /** Python slicing `s[lo:hi]`: out-of-range bounds are clipped. */
  function Slice<T>(s: seq<T>, lo: nat, hi: nat): seq<T> {
    var h := if hi <= |s| then hi else |s|;
    var l := if lo <= h then lo else h;
    s[l..h]
  }

  /** `res.content[2:5] == 'xml'`: how the renderer recognises a WMS service
      exception report (an XML document starts with `<?xml`). */
  predicate IsXmlBody(body: Bytes) {
    Slice(body, 2, 5) == XmlMarker
  }

  /** A body is classified as XML exactly when it has at least five bytes and
      bytes 2, 3 and 4 spell "xml"; a shorter body never is. */
  lemma IsXmlBodyExactly(body: Bytes)
    ensures IsXmlBody(body) <==> |body| >= 5 && body[2] == 0x78 && body[3] == 0x6D && body[4] == 0x6C
  {
    if |body| >= 5 {
      assert Slice(body, 2, 5) == [body[2], body[3], body[4]];
    } else {
      assert |Slice(body, 2, 5)| < 3;
    }
  }

  /** How `WmsRenderer.render` treats the answer to its request, in this
      order: no connection, HTTP 404, an XML service exception, else the body
      is written verbatim to the caller's `filename`. */
  function Classify(url: Value, query: Params, answer: Fetch, kw: Params): (r: Result<Effect>)
    ensures answer.Unreachable? <==> r == Err(ConnectionError(url, query))
    ensures (answer.Response? && answer.status == 404) <==> r == Err(HTTPNotFound(url, query))
    ensures (answer.Response? && answer.status != 404 && IsXmlBody(answer.content))
              <==> r.Err? && r.error.ValueError?
    ensures r.Err? && r.error.ValueError? ==> r.error == ValueError(url, query, answer.content)
    ensures r.Ok? <==> answer.Response? && answer.status != 404 && !IsXmlBody(answer.content) && "filename" in kw
    ensures r.Ok? ==> r.value == Wrote(kw["filename"], answer.content)
    ensures r == Err(KeyError("filename")) <==>
              answer.Response? && answer.status != 404 && !IsXmlBody(answer.content) && "filename" !in kw
  {
    match answer
    case Unreachable => Err(ConnectionError(url, query))
    case Response(status, body) =>
      if status == 404 then Err(HTTPNotFound(url, query))
      else if IsXmlBody(body) then Err(ValueError(url, query, body))
      else
        var filename :- Get(kw, "filename");
        Ok(Wrote(filename, body))
  }

  /** `WmsRenderer.render`: builds the query, fails on a missing `url`, sends
      the merged query to `url` and classifies the answer. */
  function WmsRender(kw: Params, get: (Value, Params) -> Fetch): (r: Result<Effect>)
    ensures !WmsArgsUsable(kw) ==> r == Err(WmsQuery(kw).error)
    ensures WmsArgsUsable(kw) && "url" !in kw ==> r == Err(KeyError("url"))
    ensures WmsArgsUsable(kw) && "url" in kw ==>
              r == Classify(kw["url"], SentQuery(kw), get(kw["url"], SentQuery(kw)), kw)
  {
    var _ :- WmsQuery(kw);
    var query := SentQuery(kw);
    var url :- Get(kw, "url");
    Classify(url, query, get(url, query), kw)
  }

  // ===== GeojsonRenderer =====

  /** The fixed outline colour of the vector style. */
  const OutlineColor := "rgb(50%,50%,50%)"

  /** The caller's arguments from which the vector map can be set up. */
  predicate GeojsonArgsUsable(kw: Params) {
    && "width" in kw && "height" in kw && "epsg" in kw && "color" in kw && "opacity" in kw
    && "geojson" in kw && "bbox" in kw && Indexable(kw["bbox"], 4)
    && "filename" in kw && "filetype" in kw
  }

  /** `GeojsonRenderer.render`: one map of the caller's size and projection,
      one style rule (fill in the caller's colour and opacity, a 1-pixel grey
      outline, default point markers), the caller's geometry as the only
      layer, zoomed to the first four bounding-box entries in order. */
  function GeojsonRender(kw: Params): (r: Result<Effect>)
    ensures r.Ok? <==> GeojsonArgsUsable(kw)
    ensures "width" !in kw ==> r == Err(KeyError("width"))
    ensures r.Err? ==> r.error == TypeError || r.error == IndexError || (r.error.KeyError? && r.error.key !in kw)
    ensures r.Ok? ==> && r.value.Rasterized?
                      && r.value.width == kw["width"] && r.value.height == kw["height"]
                      && r.value.srs == "+init=epsg:" + PyStr(kw["epsg"])
                      && r.value.rule == [PolygonFill(PyStr(kw["color"]), kw["opacity"]), Line(OutlineColor, 1.0), PointMarker]
                      && r.value.geojson == kw["geojson"]
                      && |r.value.extent| == 4
                      && (kw["bbox"].List? ==> r.value.extent == kw["bbox"].items[..4])
                      && r.value.target == PyStr(kw["filename"])
                      && r.value.filetype == PyStr(kw["filetype"])
  {
    var width :- Get(kw, "width");
    var height :- Get(kw, "height");
    var epsg :- Get(kw, "epsg");
    var color :- Get(kw, "color");
    var opacity :- Get(kw, "opacity");
    var geojson :- Get(kw, "geojson");
    var bbox :- Get(kw, "bbox");
    var x0 :- Index(bbox, 0);
    var y0 :- Index(bbox, 1);
    var x1 :- Index(bbox, 2);
    var y1 :- Index(bbox, 3);
    var filename :- Get(kw, "filename");
    var filetype :- Get(kw, "filetype");
    var rule := [PolygonFill(PyStr(color), opacity), Line(OutlineColor, 1.0), PointMarker];
    Ok(Rasterized(width, height, "+init=epsg:" + PyStr(epsg), rule,
                  geojson, [x0, y0, x1, y1], PyStr(filename), PyStr(filetype)))
  }

  // ===== WktRenderer =====

  /** `WktRenderer.render`: converts the caller's `wkt` and renders it with the
      vector renderer, passing the caller's arguments with `geojson` set. */
  function WktRender(kw: Params, toGeojson: Value -> Result<Value>): (r: Result<Effect>)
    ensures "wkt" !in kw ==> r == Err(KeyError("wkt"))
    ensures "wkt" in kw && toGeojson(kw["wkt"]).Err? ==> r == Err(toGeojson(kw["wkt"]).error)
    ensures r.Ok? ==> "wkt" in kw && toGeojson(kw["wkt"]).Ok? && r.value.Rasterized?
                      && r.value.geojson == toGeojson(kw["wkt"]).value
  {
    var wkt :- Get(kw, "wkt");
    var geojson :- toGeojson(wkt);
    GeojsonRender(kw["geojson" := geojson])
  }

  /** Delegation replaces only `geojson`: rendering a WKT is rendering, as
      GeoJSON, any argument set that agrees with the caller's on every other
      key and holds the converted geometry under `geojson`. */
  lemma WktDelegation(kw: Params, toGeojson: Value -> Result<Value>, kw': Params)
    requires "wkt" in kw && toGeojson(kw["wkt"]).Ok?
    requires kw'.Keys == kw.Keys + {"geojson"}
    requires kw'["geojson"] == toGeojson(kw["wkt"]).value
    requires forall key :: key in kw && key != "geojson" ==> kw'[key] == kw[key]
    ensures WktRender(kw, toGeojson) == GeojsonRender(kw')
  {
  }

  // ===== TextRenderer =====

  const TextDefaults: Params := map["gravity" := Str("center"), "font_size" := Int(10), "text_color" := Str("#000000")]

  /** `TextRenderer.render`: a caption of the caller's text on a canvas of the
      caller's size; gravity, font size and colour default to centre, 10 and
      black and are overridden by the caller's values. Only the four keys
      without a default can be missing, and the first missing one is reported. */
  function TextRender(kw: Params): (r: Result<Effect>)
    ensures r.Ok? <==> "width" in kw && "height" in kw && "text" in kw && "filename" in kw
    ensures r.Err? ==> r.error == KeyError(if "width" !in kw then "width" else if "height" !in kw then "height"
                                           else if "text" !in kw then "text" else "filename")
    ensures r.Ok? ==> r.value == Captioned(kw["width"], kw["height"],
                                           Setting(TextDefaults, kw, "font_size"),
                                           Setting(TextDefaults, kw, "text_color"),
                                           kw["text"],
                                           Setting(TextDefaults, kw, "gravity"),
                                           kw["filename"])
  {
    var eff := Utils.Merged([TextDefaults, kw]);
    WithDefaults(TextDefaults, kw);
    var width :- Get(eff, "width");
    var height :- Get(eff, "height");
    var fontSize, textColor := eff["font_size"], eff["text_color"];
    var text :- Get(eff, "text");
    var gravity := eff["gravity"];
    var filename :- Get(eff, "filename");
    Ok(Captioned(width, height, fontSize, textColor, text, gravity, filename))
  }

  // ===== LogoRenderer =====

  const LogoDefaults: Params := map["gravity" := Str("center"), "opacity" := Int(1)]

  /** `LogoRenderer.render`: downloads the caller's image, decodes it,
      resizes it to the caller's figure size and places it on a canvas of the
      caller's size; gravity and opacity default to centre and 1. A body the
      image library cannot decode raises before any further argument is read. */
  function LogoRender(kw: Params, get: (Value, Params) -> Fetch, decodes: Bytes -> bool): (r: Result<Effect>)
    ensures "url" !in kw ==> r == Err(KeyError("url"))
    ensures "url" in kw && get(kw["url"], map[]).Unreachable? ==> r == Err(ConnectionError(kw["url"], map[]))
    ensures "url" in kw && get(kw["url"], map[]).Response? && !decodes(get(kw["url"], map[]).content) ==>
              r == Err(WandError(get(kw["url"], map[]).content))
    ensures r.Ok? <==> "url" in kw && get(kw["url"], map[]).Response? && decodes(get(kw["url"], map[]).content)
                       && "imagewidth" in kw && "imageheight" in kw && "width" in kw && "height" in kw && "filename" in kw
    ensures "url" in kw && get(kw["url"], map[]).Response? && decodes(get(kw["url"], map[]).content) && r.Err? ==>
              r.error == KeyError(if "imagewidth" !in kw then "imagewidth" else if "imageheight" !in kw then "imageheight"
                                  else if "width" !in kw then "width" else if "height" !in kw then "height" else "filename")
    ensures r.Ok? ==> r.value == Positioned(Downloaded(get(kw["url"], map[]).content),
                                            kw["imagewidth"], kw["imageheight"],
                                            Setting(LogoDefaults, kw, "opacity"),
                                            kw["width"], kw["height"],
                                            Setting(LogoDefaults, kw, "gravity"),
                                            kw["filename"])
  {
    var eff := Utils.Merged([LogoDefaults, kw]);
    WithDefaults(LogoDefaults, kw);
    var url :- Get(eff, "url");
    match get(url, map[])
    case Unreachable => Err(ConnectionError(url, map[]))
    case Response(_, blob) =>
      if !decodes(blob) then Err(WandError(blob))
      else
        var imageWidth :- Get(eff, "imagewidth");
        var imageHeight :- Get(eff, "imageheight");
        var opacity := eff["opacity"];
        var width :- Get(eff, "width");
        var height :- Get(eff, "height");
        var gravity := eff["gravity"];
        var filename :- Get(eff, "filename");
        Ok(Positioned(Downloaded(blob), imageWidth, imageHeight, opacity, width, height, gravity, filename))
  }

  /** The logo renderer never looks at the HTTP status: whatever body comes
      back, an error page included, goes to the image library, which either
      decodes it or raises. */
  lemma LogoIgnoresStatus(kw: Params, get: (Value, Params) -> Fetch, get': (Value, Params) -> Fetch,
                          decodes: Bytes -> bool)
    requires "url" in kw
    requires get(kw["url"], map[]).Response? && get'(kw["url"], map[]).Response?
    requires get(kw["url"], map[]).content == get'(kw["url"], map[]).content
    ensures LogoRender(kw, get, decodes) == LogoRender(kw, get', decodes)
  {
  }

  // ===== ScaleRenderer =====

  const ScaleDefaults: Params := map["gravity" := Str("center"), "opacity" := Int(1)]

  /** The scale bar's size: a tenth of the canvas width, and the height that
      keeps the bar image's aspect ratio, both rounded down as Python 2 integer
      division does. */
  function ScaleBarSize(canvasWidth: int, bar: Size): (r: (int, int))
    ensures r.0 * 10 <= canvasWidth < r.0 * 10 + 10
    ensures r.1 * bar.width <= bar.height * r.0 < r.1 * bar.width + bar.width
  {
    var scaleWidth := canvasWidth / 10;
    (scaleWidth, bar.height * scaleWidth / bar.width)
  }

  /** `ScaleRenderer.render`: the packaged scale bar, resized by
      `ScaleBarSize`, placed on a canvas of the caller's size; gravity and
      opacity default to centre and 1. */
  function ScaleRender(kw: Params, bar: Size): (r: Result<Effect>)
    ensures "width" !in kw ==> r == Err(KeyError("width"))
    ensures "width" in kw && !kw["width"].Int? ==> r == Err(TypeError)
    ensures r.Ok? <==> "width" in kw && kw["width"].Int? && "height" in kw && "filename" in kw
    ensures "width" in kw && kw["width"].Int? && r.Err? ==>
              r.error == KeyError(if "height" !in kw then "height" else "filename")
    ensures r.Ok? ==> r.value == Positioned(ScaleBarAsset,
                                            Int(ScaleBarSize(kw["width"].i, bar).0),
                                            Int(ScaleBarSize(kw["width"].i, bar).1),
                                            Setting(ScaleDefaults, kw, "opacity"),
                                            kw["width"], kw["height"],
                                            Setting(ScaleDefaults, kw, "gravity"),
                                            kw["filename"])
  {
    var eff := Utils.Merged([ScaleDefaults, kw]);
    WithDefaults(ScaleDefaults, kw);
    var width :- Get(eff, "width");
    if !width.Int? then Err(TypeError)
    else
      var size := ScaleBarSize(width.i, bar);
      var opacity := eff["opacity"];
      var height :- Get(eff, "height");
      var gravity := eff["gravity"];
      var filename :- Get(eff, "filename");
      Ok(Positioned(ScaleBarAsset, Int(size.0), Int(size.1), opacity, width, height, gravity, filename))
  }

  /** The scale bar does not depend on the map's extent or projection: it is
      not a true geographic scale. */
  lemma ScaleIgnoresExtent(kw: Params, bar: Size, bbox: Value, epsg: Value)
    ensures ScaleRender(kw["bbox" := bbox]["epsg" := epsg], bar) == ScaleRender(kw, bar)
  {
  }

  // ===== dispatch =====

  /** `render(**kwargs)` of the renderer of kind `kind`. The legend and
      default renderers always raise NotImplementedError. */
  function Render(kind: Kind, kw: Params, env: Env): (r: Result<Effect>)
    ensures kind == Legend || kind == Default ==> r == Err(NotImplementedError)
    ensures r.Ok? ==> && (kind == Wms <==> r.value.Wrote?)
                      && (kind == Wkt || kind == Geojson <==> r.value.Rasterized?)
                      && (kind == Text <==> r.value.Captioned?)
                      && (kind == Logo || kind == Scale <==> r.value.Positioned?)
  {
    match kind
    case Wms => WmsRender(kw, env.get)
    case Wkt => WktRender(kw, env.toGeojson)
    case Geojson => GeojsonRender(kw)
    case Text => TextRender(kw)
    case Logo => LogoRender(kw, env.get, env.decodes)
    case Scale => ScaleRender(kw, env.scaleBar)
    case Legend => Err(NotImplementedError)
    case Default => Err(NotImplementedError)
  }

  /** Dispatch never fails: any tag gives a renderer, and an unrecognised tag
      gives one whose every render raises NotImplementedError. */
  lemma FactoryTotal(tag: string, kw: Params, env: Env)
    ensures tag !in KnownTags ==> TypeTag(Factory(tag)) == "default"
                                  && Render(Factory(tag), kw, env) == Err(NotImplementedError)
    ensures tag == "legend" ==> Render(Factory(tag), kw, env) == Err(NotImplementedError)
  {
  }
}
