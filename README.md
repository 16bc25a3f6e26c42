# static_map_generator in Dafny

static_map_generator builds a static map picture from layers: WMS tiles, vector
geometry (WKT or GeoJSON), text captions, logos and a scale bar. This project
models the parameter handling and dispatch around those layers, and the
compositing order. Every library it calls is left uninterpreted: the HTTP
client, the WKT-to-GeoJSON converter, Wand/ImageMagick and mapnik.

- `py_values.dfy` (module `PyValues`) covers the values in a `**kwargs` bag
  (`Value`, `Params`) and the exceptions the code raises (`Exception`, `Result`).
  It also models `kw[key]`, `v[i]`, `"prefix" + v` and Python's `str()` of an
  integer, with the parser that reads it back.
- `utils.dfy` (module `Utils`) covers `merge_dicts` and `combine_layers`.
  - `merge_dicts` is a loop method, `MergeDicts`. It is proved against the fold
    `Merged`.
  - `combine_layers` is a loop method, `CombineLayers`, over an in-place
    `Canvas` object. A picture is a term of `Image`: a file loaded from a path,
    or one picture composited onto another at an offset. So nothing is assumed
    about pixels.
- `renderer.dfy` (module `Renderer`) covers the renderer classes, the factory
  and each `render`.
  - A render returns either the exception it raises first, in Python's
    evaluation order, or an `Effect`. An `Effect` is the request handed to the
    library that writes the file.
  - The collaborators are fields of `Env`: `requests.get`,
    `convert_wkt_to_geojson`, whether Wand can decode a downloaded body, and the
    size of the packaged scale-bar image.

Two behaviours of the code are worth noting, and the model keeps both:
- On a key that the caller passes and the WMS renderer also builds, the built
  value wins. This is because `merge_dicts(kwargs, params)` puts the built map
  last (renderer.py:64).
- `combine_layers([])` raises AttributeError, because `save` is called on
  `None` (utils.py:6 and 16).

The code targets Python 2. So `/` on integers rounds down (as Dafny's `/` does
for a positive divisor), and the response body is a byte string. That makes
`res.content[2:5] == 'xml'` a real comparison.

## Model

| member | source | states |
|---|---|---|
| `Utils.MergeDicts` | static_map_generator/utils.py:42-50 | the loop builds a new map equal to the left fold of update over the arguments, `Merged`; what that fold holds is stated by `MergedKeys` and `MergedLastWins` |
| `Utils.MergedKeys` | static_map_generator/utils.py:47-50 | a key is in the merged map iff some argument holds it |
| `Utils.MergedLastWins` | static_map_generator/utils.py:43-49 | if argument i is the last one holding k, the merged value of k is argument i's |
| `Utils.MergedUnits` | static_map_generator/utils.py:47-50 | no argument gives the empty map; one argument gives itself; an empty map on either side changes nothing |
| `Utils.MergedAppend` | static_map_generator/utils.py:47-50 | merging a concatenated argument list equals merging each half and letting the second half win |
| `Utils.MergedPair` | static_map_generator/utils.py:47-50 | with two arguments, the second overrides the first key by key, and the key set is the union |
| `Utils.Canvas.Load` | static_map_generator/utils.py:9 | a freshly loaded image is the file at the given path, open |
| `Utils.Canvas.Composite` | static_map_generator/utils.py:15 | compositing replaces the image in place by the layer drawn over the old image at the given offset |
| `Utils.Canvas.Close` | static_map_generator/utils.py:17 | closing releases the image and leaves its picture unchanged |
| `Utils.CombineLayers` | static_map_generator/utils.py:5-17 | an empty list raises AttributeError (save on None); otherwise the saved file is the first image with every later one composited at (0,0) in list order |
| `Utils.ComposeOntoSnoc` | static_map_generator/utils.py:7-15 | one more image at the end of the list adds exactly one overlay, at (0,0), on top of the picture so far |
| `Utils.ComposeOntoShape` | static_map_generator/utils.py:7-15 | folding n images onto a base appends them to its layers in order and adds n composite calls, all at (0,0) |
| `Utils.FlattenedShape` | static_map_generator/utils.py:7-16 | the saved picture holds the input images exactly once each, in list order, built by exactly n-1 composite calls at (0,0); a single image is saved unchanged |
| `Utils.FlattenedUnique` | static_map_generator/utils.py:7-16 | any picture stacked one file at a time at (0,0) is the flattening of its own layer list, so the order of the layers determines the result |
| `Renderer.Factory` | static_map_generator/renderer.py:22-38 | each of the seven known tags gives a renderer whose `type()` is that tag; every other string gives the default renderer |
| `Renderer.FactoryOfTypeTag` | static_map_generator/renderer.py:22-38 | every renderer kind is what the factory builds from its own `type()` tag, so tags are distinct and "default" is not a known tag |
| `Renderer.FactoryTotal` | static_map_generator/renderer.py:35-38 | for an unknown tag the renderer reports "default" and every render raises NotImplementedError; the legend renderer's render does the same |
| `Renderer.Render` | static_map_generator/renderer.py:188-201 | the legend and default renderers always raise NotImplementedError; a successful render of each other kind produces that kind's effect |
| `Renderer.WithDefaults` | static_map_generator/renderer.py:118-123 | merging caller arguments over defaults keeps every key of both, and the caller's value wins on each key |
| `Renderer.WmsQuery` | static_map_generator/renderer.py:51-63 | a missing `layers` is the first KeyError; the query is built iff layers, a string filetype, epsg, a bbox with at least four entries, width and height are present. It has exactly the eleven GetMap keys: transparent TRUE, service WMS, version 1.1.0, request GetMap, empty styles, format "image/"+filetype, srs "EPSG:"+str(epsg), and layers, width and height copied. A failure is a TypeError, an IndexError or a KeyError for an absent key |
| `Renderer.BboxTextRoundTrip` | static_map_generator/renderer.py:60 | an integer bbox is sent as text that splits at commas into exactly four parts, which read back as bbox[0..3] in order |
| `Renderer.SentQuery` | static_map_generator/renderer.py:64 | the sent query holds every caller key and every GetMap key; a caller key outside the GetMap keys keeps the caller's value; on a GetMap key the built value wins |
| `Renderer.IsXmlBodyExactly` | static_map_generator/renderer.py:71 | a body counts as an XML service exception iff it has at least five bytes and bytes 2..4 spell "xml" |
| `Renderer.Classify` | static_map_generator/renderer.py:65-74 | the four outcomes, each as an iff, in this order: no connection gives ConnectionError; else status 404 gives HTTPNotFound; else an XML body gives ValueError carrying url, query and body; else the body is written verbatim to `filename` (KeyError if that is absent) |
| `Renderer.WmsRender` | static_map_generator/renderer.py:50-74 | a query-building failure is raised first, then a missing url; otherwise the merged query is sent to the caller's url and the answer is classified |
| `Renderer.GeojsonRender` | static_map_generator/renderer.py:81-101 | it succeeds iff the ten required arguments are present and bbox has at least four entries. The map has the caller's size and the srs "+init=epsg:"+str(epsg). The style rule is, in order, a fill in the caller's colour and opacity, a grey outline of width 1, and a default point marker. The caller's geometry is drawn, zoomed to bbox[0..3] in order |
| `Renderer.WktRender` | static_map_generator/renderer.py:108-110 | a missing wkt raises KeyError and a conversion failure is propagated; a success draws exactly the converted geometry |
| `Renderer.WktDelegation` | static_map_generator/renderer.py:108-110 | the WKT render equals the GeoJSON render of any argument map that agrees with the caller's on every key except `geojson` and holds the converted geometry there |
| `Renderer.TextRender` | static_map_generator/renderer.py:117-130 | it succeeds iff width, height, text and filename are present, else a KeyError names the first missing one in lookup order. Gravity, font size and text colour are the caller's values, else center, 10 and #000000 |
| `Renderer.LogoRender` | static_map_generator/renderer.py:137-149 | a missing url raises KeyError and no connection raises ConnectionError. A body the image library cannot decode raises its error before any other argument is read. Otherwise it succeeds iff imagewidth, imageheight, width, height and filename are present, else a KeyError names the first missing one. The downloaded body is resized to the caller's figure size and placed with the caller's gravity and opacity, else center and 1 |
| `Renderer.LogoIgnoresStatus` | static_map_generator/renderer.py:145-146 | the logo render depends only on the downloaded body, not on the HTTP status: an error page is handed to the image library like any other body |
| `Renderer.ScaleBarSize` | static_map_generator/renderer.py:176-178 | the bar's width is canvas width divided by 10, rounded down. Its height keeps the bar image's aspect ratio up to rounding down: height times image width lies within one image width below image height times bar width |
| `Renderer.ScaleRender` | static_map_generator/renderer.py:157-181 | a missing width raises KeyError and a non-integer width raises TypeError. Otherwise it succeeds iff height and filename are present. The packaged bar is resized by ScaleBarSize and placed with the caller's gravity and opacity, else center and 1 |
| `Renderer.ScaleIgnoresExtent` | static_map_generator/renderer.py:166-181 | the scale bar does not depend on the bbox or the epsg: it is no true geographic scale |
| `PyValues.PyStr` | static_map_generator/renderer.py:59-60 | `str()` of a string is the string itself; `str()` of an integer is comma-free text that reads back as the same integer |
| `PyValues.IntTextRoundTrip` | static_map_generator/renderer.py:59-60 | the decimal text of every integer parses back to that integer |
| `PyValues.Index` | static_map_generator/renderer.py:60 | `v[i]` succeeds iff v is a list or string with more than i entries, and then gives the i-th element or the i-th character as a one-character string; otherwise it raises IndexError for a list or string, TypeError for anything else |

## Left out

- The orchestrator (`Generator`) is not part of this model. So neither is per-layer failure isolation, temporary files or the order in which layers reach `combine_layers`.
- `create_buffer` and `convert_filetype` (shapely buffering; Wand format conversion that swallows errors) are out of scope.
- The geometry converters `convert_wkt_to_geojson` / `convert_geojson_to_wkt` are not part of this model. The WKT renderer takes the converter as the uninterpreted `Env.toGeojson`, so the WKT/GeoJSON round trip is not stated.
- `position_figure` is not part of this model: Logo and Scale end with a `Positioned` effect that records its arguments.
- Network and file I/O: `requests.get` is the uninterpreted `Env.get`. A file write is the `Wrote` effect. A mapnik `render_to_file` is the `Rasterized` effect. An image save is `SavedFile`; `Utils.Canvas.Save` returns it rather than writing to a file store.
- Pixel semantics of Wand (`caption`, `resize`, `transparentize`, `composite`) and of mapnik. Pictures are terms, not pixels, and the font path of the text renderer is not recorded.
- `Utils.Canvas.Load`: reading an image never fails in the model. An unreadable or corrupt layer file, which Wand would reject, is not modelled.
- `Utils.CombineLayers`: the intermediate images loaded for each overlay are never closed in the source, and the model does not track them.
- `Renderer.LogoRender`, `Renderer.ScaleRender`: `1 - opacity` is not evaluated (it is fractional and only affects transparency). The opacity value is passed on as given, so a TypeError for a non-numeric opacity is not modelled.
- `Renderer.ScaleRender`: a float width, which Python 2 would divide exactly, is treated like any other non-integer and raises TypeError. The scale-bar image is taken to be at least one pixel wide and high.
- `PyValues.Index`: a mapping indexed by an integer (for example a bbox given as `{0: x0, 1: y0, ...}`) is not modelled. `Object` stands only for values that cannot be subscripted, so indexing one raises TypeError.
- `Renderer.LogoRender`: whether Wand can decode a body is the uninterpreted `Env.decodes`. Which bytes it accepts, and the exact exception class it raises, are not modelled.
- `PyValues.PyStr`: `str()` of a list or of an opaque object (a float, a mapping) is a placeholder text. Statements about the srs and bbox texts are exact only for integer and string entries.
- `warnings.warn` in the scale renderer and the library's own argument checks (for example mapnik requiring integer sizes) are not modelled.
- Python 3 behaviour, where a bytes body never equals the text 'xml', is not modelled: the code targets Python 2.
