# Border cost layer and mesh channel client

This project models two stateful components of a mesh navigation stack for mobile robots.

**The border cost layer** (`MeshLayers`, class `BorderLayer`) belongs to the mesh map. It keeps
a cost per mesh vertex and derives from it the set of *lethal* vertices: those whose cost lies
strictly above a configurable threshold. The costs are either loaded from the "border"
attribute of the map file or computed from the mesh with a configured border cost. The
lethal set is then rebuilt. A reconfiguration callback receives a batch of named
parameters. It updates the threshold, border cost and layer weight (`factor`). It rebuilds
the lethal set, and notifies the map, only when the batch holds a threshold. The model
proves that every operation keeps the lethal set equal to the vertices whose cost exceeds
the threshold (`BorderLayer.Valid`). It also proves what the callback does with repeated,
missing and unknown parameter names.

**The mesh client** (`MeshClient`, class `MeshClient`) fetches mesh channels from a mesh
server. Its request state is a bounding box and a set of value filters per attribute. It
turns this state into a JSON request (`MeshRequest`, an abstract JSON tree). It keeps three
caches of channels by name: float, index and byte channels. Every getter consults its cache
first. On a miss, the server's answer is decoded (`ByteData`). An answer is a one-byte element
type tag, an 8-byte element count, an 8-byte width and the element data from byte 17 on.
The server's answer is an input of each getter: present or absent, and any bytes.
The model proves:
- the header decoder and its encoder are inverse;
- a decoded channel takes each element from the right four bytes;
- a request carries exactly the name, box and filters it was built from, with the filters in
  ascending name order, assuming the filters are kept in an ordered map;
- the getters return the cached entry and otherwise follow the acceptance rules of the source.
Getters change no state in the model (they have no `modifies` clause): a fetched channel is
returned, never cached.

Floating-point values are modelled as `real`. The elements of float channels are their
32-bit patterns (`u32`). Multi-byte integers are read least significant byte first.

## Model

| member | source | states |
|---|---|---|
| MeshLayers.BorderLayer.ComputeLethals | mesh_layers/src/border_layer.cpp:64-78 | always returns true; afterwards a vertex is lethal iff it has a cost and that cost is strictly above the threshold (so a cost equal to the threshold is not lethal); the previous lethal set is discarded, so a second call with the same costs and threshold gives the same set |
| MeshLayers.BorderLayer.ReadLayer | mesh_layers/src/border_layer.cpp:48-62 | returns true iff the map file has a "border" attribute; then the costs are that attribute and the lethal set is rebuilt from them; otherwise the costs and lethal set are unchanged |
| MeshLayers.BorderLayer.ComputeLayer | mesh_layers/src/border_layer.cpp:100-104 | the costs become those computed from the mesh with the configured border cost, then the lethal set is rebuilt from them; returns true |
| MeshLayers.BorderLayer.Threshold | mesh_layers/src/border_layer.cpp:95-98 | returns the configured threshold |
| MeshLayers.BorderLayer.Costs | mesh_layers/src/border_layer.cpp:106-109 | returns the current cost map |
| MeshLayers.BorderLayer.NotifyChange | mesh_layers/src/border_layer.cpp:131 | records one change notification to the mesh map |
| MeshLayers.BorderLayer.ReconfigureCallback | mesh_layers/src/border_layer.cpp:111-135 | always reports success; the new configuration is the batch applied in order; the lethal set is rebuilt and one change notified iff the batch holds a threshold parameter, otherwise the threshold, lethal set and notifications are unchanged; costs never change; the lethal-set invariant is preserved |
| MeshLayers.ApplyParameterField | mesh_layers/src/border_layer.cpp:117-126 | one parameter sets a configuration field iff its name is that field's full name (`<namespace>.<layer>.threshold`, `.border_cost`, `.factor`), and leaves the field otherwise |
| MeshLayers.ParameterNamesDistinct | mesh_layers/src/border_layer.cpp:118-123 | the three full parameter names of a layer are pairwise different, so one parameter changes at most one field |
| MeshLayers.UnmentionedFieldUnchanged | mesh_layers/src/border_layer.cpp:117-126 | a field that no parameter of the batch names keeps its value |
| MeshLayers.LastParameterWins | mesh_layers/src/border_layer.cpp:117-126 | when a field is named several times in one batch, it ends with the value of the last such parameter |
| MeshLayers.IrrelevantBatchIgnored | mesh_layers/src/border_layer.cpp:117-126 | a batch that names none of the three fields leaves the configuration unchanged |
| ByteData.LittleEndian | mesh_client/src/mesh_client.cpp:72-73 | the value read from k bytes lies below 256^k, so eight bytes fit an `unsigned long` |
| ByteData.LittleEndianOfEncoding | mesh_client/src/mesh_client.cpp:72-73 | reading back the k-byte encoding of a number below 256^k gives the number |
| ByteData.EncodingOfLittleEndian | mesh_client/src/mesh_client.cpp:72-73 | encoding the value read from a byte string gives back the byte string |
| ByteData.ParseByteData | mesh_client/src/mesh_client.cpp:65-76 | a header is found iff the input holds at least the 17 header bytes; the payload is everything after them |
| ByteData.EncodeByteData | mesh_client/src/mesh_client.cpp:65-76 | the encoding of a header and payload is 17 bytes longer than the payload |
| ByteData.ParseEncoded | mesh_client/src/mesh_client.cpp:65-76 | decoding an encoded header gives back its type tag, size (bytes 1-8), width (bytes 9-16) and payload (from byte 17) |
| ByteData.EncodeParsed | mesh_client/src/mesh_client.cpp:65-76 | every input of at least 17 bytes is the encoding of its decoded header and payload |
| ByteData.GuardAdmitsShortHeader | mesh_client/src/mesh_client.cpp:67-73 | the parser's guard accepts a 10-byte input although it then reads 17 header bytes |
| ByteData.GuardsAgreeOnResponses | mesh_client/src/mesh_client.cpp:67-68 | on every response longer than 17 bytes, the only ones the getters parse, the parser succeeds and a header is found |
| ByteData.Words | mesh_client/src/mesh_client.cpp:100-102 | the first n 4-byte words of a payload: element i is the little-endian value of bytes 4i .. 4i+3 |
| ByteData.WordsOfWordBytes | mesh_client/src/mesh_client.cpp:100-102 | the words read from the bytes of a word sequence are that sequence |
| ByteData.PayloadWords | mesh_client/src/mesh_client.cpp:100-102 | element i of the payload is the value of response bytes 17+4i .. 20+4i |
| ByteData.PayloadChannel | mesh_client/src/mesh_client.cpp:100-104 | the channel built from a response has the header's size and width, holds size*width elements, and element i is the value of bytes 17+4i .. 20+4i |
| ByteData.DecodeWordChannel | mesh_client/src/mesh_client.cpp:87-104 | a fetched response yields a channel iff it exists, is longer than 17 bytes and carries the expected type tag; the channel is then the one the response describes |
| ByteData.DecodeEncodedWordChannel | mesh_client/src/mesh_client.cpp:87-104 | decoding the response the server would send for a non-empty channel gives back that channel |
| MeshRequest.SortedKeys | mesh_client/src/mesh_client.cpp:37 | the filter names in the traversal order of an ordered map (an assumption, see below): strictly ascending, one per filter, and exactly the stored names |
| MeshRequest.FilterOfFilterEntry | mesh_client/src/mesh_client.cpp:39-43 | a filter entry carries the filter's attribute name, minimum and maximum |
| MeshRequest.FilterEntriesInOrder | mesh_client/src/mesh_client.cpp:37-45 | the filter array lists the filters in the order of the names it is built from |
| MeshRequest.FiltersOfFilterEntries | mesh_client/src/mesh_client.cpp:37-45 | the filters read back from the array are exactly the stored filters of the listed names |
| MeshRequest.BoundingBoxRoundTrip | mesh_client/src/mesh_client.cpp:50-56 | the box object holds the six stored numbers under `x_min`, `y_min`, `z_min`, `x_max`, `y_max`, `z_max`, in that order |
| MeshRequest.RequestAttribute | mesh_client/src/mesh_client.cpp:31-48 | the request's attribute object is present, and it holds a `filters` member iff at least one filter exists |
| MeshRequest.RequestCarriesName | mesh_client/src/mesh_client.cpp:31-32 | the request names the requested attribute |
| MeshRequest.RequestCarriesBox | mesh_client/src/mesh_client.cpp:50-59 | the request carries the stored bounding box, minimum corner first |
| MeshRequest.RequestCarriesFilters | mesh_client/src/mesh_client.cpp:34-48 | the filters read back from the request are exactly the stored filters, and none when there is none |
| MeshRequest.RequestFilterArray | mesh_client/src/mesh_client.cpp:34-48 | with at least one filter, the filter array holds one entry per stored filter, in strictly ascending name order, assuming an ordered filter map |
| MeshClient.MeshClient.constructor | mesh_client/src/mesh_client.cpp:7-11 | stores the server URL and credentials; no filters and empty caches; the bounding box starts as six zeros |
| MeshClient.MeshClient.SetBoundingBox | mesh_client/src/mesh_client.cpp:13-22 | the six arguments are stored at indices 0..5 in order |
| MeshClient.MeshClient.AddFilter | mesh_client/src/mesh_client.cpp:24-27 | the channel's (min, max) range is stored, replacing an earlier one for the same channel; other filters are unchanged |
| MeshClient.MeshClient.BuildJson | mesh_client/src/mesh_client.cpp:29-63 | the request built from the current state names the attribute and carries exactly the stored box and filters |
| MeshClient.MeshClient.GetVertices | mesh_client/src/mesh_client.cpp:78-109 | cached "vertices" are returned without regard to the server; otherwise a channel is returned iff the response exists, is longer than 17 bytes and carries the float tag, and it is the channel the response describes |
| MeshClient.MeshClient.GetIndices | mesh_client/src/mesh_client.cpp:111-141 | cached "face_indices" are returned; otherwise a channel is returned iff the response exists, is longer than 17 bytes and carries the unsigned-integer tag, and it is the channel the response describes |
| MeshClient.MeshClient.AddVertices | mesh_client/src/mesh_client.cpp:143-147 | returns true; the float cache maps "vertices" to the channel, other entries unchanged |
| MeshClient.MeshClient.AddIndices | mesh_client/src/mesh_client.cpp:149-153 | returns true; the index cache maps "face_indices" to the channel, other entries unchanged |
| MeshClient.MeshClient.GetFloatChannel | mesh_client/src/mesh_client.cpp:155-182 | a cached channel is returned with true; on a miss the result is true iff the response exists, is longer than 17 bytes and carries the float tag, with the channel it describes; on false the caller's channel is left as it was |
| MeshClient.MeshClient.GetIndexChannel | mesh_client/src/mesh_client.cpp:184-210 | true iff the name is cached, with the cached channel; on a miss the negated test of line 200 is applied to the response and fails whatever the response and the uninitialised tag hold, so the result is false and the caller's channel is left as it was |
| MeshClient.IndexMissTestRejectsEveryResponse | mesh_client/src/mesh_client.cpp:194-200 | the negated test at line 200 fails for every response longer than 17 bytes, whatever the tag variable holds |
| MeshClient.IndexMissTestRejectsWellFormedResponse | mesh_client/src/mesh_client.cpp:200 | a well-formed index response that the decoder accepts is still rejected by the test as written |
| MeshClient.MeshClient.GetUCharChannel | mesh_client/src/mesh_client.cpp:212-236 | a cached channel is returned with true; on a miss the result is true iff the response exists and is longer than 17 bytes, and then the channel is the one built from uninitialised size, width and data; on false the caller's channel is left as it was |
| MeshClient.MeshClient.AddFloatChannel | mesh_client/src/mesh_client.cpp:238-242 | returns true; the float cache maps the name to the channel, other entries unchanged; the group plays no role |
| MeshClient.MeshClient.AddIndexChannel | mesh_client/src/mesh_client.cpp:244-248 | returns true; the index cache maps the name to the channel, other entries unchanged |
| MeshClient.MeshClient.AddUCharChannel | mesh_client/src/mesh_client.cpp:250-254 | returns true; the byte cache maps the name to the channel, other entries unchanged |

## Left out

- `MeshClient::requestChannel` (HTTP through libcurl) is not modelled: every getter takes the server's answer as an `Option<seq<byte>>` input. A cache hit never looks at it.
- The JSON text produced by `Json::FastWriter` is not modelled: the request is an abstract tree. Objects are maps from member names; the filter array is a sequence.
- Logging to `std::cout` and through `RCLCPP_*` is not modelled.
- `BorderLayer::initialize` is left out: it only declares ROS parameters, and the range descriptors it builds are never used. The model's constructor takes the initial configuration.
- `BorderLayer::writeLayer` is left out: it is file I/O through the map file.
- `lvr2::calcBorderCosts` is a function parameter of `ComputeLayer`. The "border" attribute of the map file is an `Option<CostMap>` parameter of `ReadLayer`. `notifyChange` is a counter of notifications.
- The planner and controller headers (`cvp_mesh_planner.h`, `mesh_controller.h`) hold only declarations; the wavefront solver, vector-field builder and control law have no bodies there and are not part of this model.
- `MeshMap::MESH_MAP_NAMESPACE` is defined in `mesh_map.h`, which is not part of this model; the constant "mesh_map" stands for it, and no proof depends on its value.
- The element type enumerators `Type::FLOAT` and `Type::UINT` are defined in `mesh_client.h`, which is not part of this model. They are constants of unspecified value below 128, and no proof depends on their values. The model does not constrain them to differ, so in the model the two tags may coincide, although the source's enumerators are distinct.
- The initial contents of `bounding_box_` are not visible in the modelled files; `mesh_client.h` is not part of this model, and the member may be left uninitialised. The model's constructor fills the box with zeros, a choice of this model.
- `rclcpp::Parameter::as_double` throws for a parameter of another type; parameters are modelled as name and real value only.
- Float and double precision, and the narrowing of a parameter's double into the configuration, are not modelled: all these values are reals.
- `BorderLayer::costs()` returns a mutable reference; the model returns the value. Writes through that reference could leave the lethal set stale; they are not modelled.
- A channel reaches its elements through a shared data pointer (`dataPtr()`), so a cached channel can share its buffer with the caller's copy from an `add*` or `get*` call. The model treats a channel as an immutable value and does not capture that sharing or writes through it.
- The host byte order is fixed to little-endian, and float elements are kept as their 32-bit patterns.
- Filter names, attribute names and parameter names are `std::string` byte strings; the model uses Dafny strings of characters, and `Below` orders them by character code. That agrees with the unsigned byte order of `std::map<std::string, …>` only when the names are ASCII or valid UTF-8 text.
- The container type of `mesh_filters_` is declared in `mesh_client.h`, which is not part of this model. The model assumes it is an ordered `std::map<std::string, …>`, whose traversal is by ascending key. MeshRequest.SortedKeys, MeshRequest.FilterEntriesInOrder and MeshRequest.RequestFilterArray state the order of the filter array only under that assumption; with an unordered map the order would be unspecified. MeshRequest.RequestCarriesFilters does not depend on the order and holds either way.
- `size * width * sizeof(element)` is computed in 64-bit arithmetic in the source; the model uses unbounded integers and does not model its wrap-around.
- MeshClient.MeshClient.GetVertices: requires a float response to hold `size * width` elements after the header, because the source copies them without checking and reading past the response is undefined.
- MeshClient.MeshClient.GetIndices: requires the same of an index response, for the same reason.
- MeshClient.MeshClient.GetFloatChannel: requires the same of a float response, for the same reason.
- ByteData.DecodeWordChannel: requires the same, for the same reason.
- MeshClient.MeshClient.GetUCharChannel: on a miss with a response longer than 17 bytes, the source builds the channel from uninitialised size, width and data pointer (undefined behaviour). The model takes that channel as the parameter `undefined` and returns it with true; it does not say what it holds.

## Findings

| source | as written | input that shows it | evidently intended | confidence | as-written member | corrected member |
|---|---|---|---|---|---|---|
| mesh_client/src/mesh_client.cpp:67 | `parseByteDataString` fails only below 10 bytes, but it reads the 8-byte width at bytes 9-16 | any 10-byte string: it is accepted and bytes 10-16 are read past its end | fail below the 17 header bytes | high; not executed | ByteData.GuardAdmitsShortHeader | ByteData.ParseByteData |
| mesh_client/src/mesh_client.cpp:200 | the index `getChannel` tests `!parseByteDataString(...) && type == Type::UINT`, so a cache miss never succeeds | the encoding of a one-element index channel (`IndexMissTestRejectsWellFormedResponse`) | `parseByteDataString(...) && type == Type::UINT`, as in `getIndices` at line 126 | high; not executed | MeshClient.IndexMissTestRejectsWellFormedResponse | ByteData.DecodeWordChannel |

The line-67 fault cannot be reached from this file: every call of `parseByteDataString` (lines 93, 126, 172 and 200) sits behind a test for more than 17 bytes (lines 87, 120, 166 and 194) (`GuardsAgreeOnResponses`). The line-200 fault is on the normal fetch path: every cache miss of the index `getChannel` fails, whatever the server sends. `GetIndexChannel` keeps that behaviour as written. `GetIndices` already has the non-negated test at line 126 and models it as written; `DecodeWordChannel` is the shared decoder that line 200 evidently intended.
