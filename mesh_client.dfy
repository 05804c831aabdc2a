/** The mesh client: request state for the mesh server (bounding box and attribute filters)
    and three name-keyed channel caches that are consulted before the server. The server's
    answer to a channel request is an input of each getter, present or not. */
module MeshClient {
  import opened Wrappers
  import opened ByteData
  import opened MeshRequest

  /** The cache names under which the mesh's vertices and face indices are kept. */
  const VerticesName: string := "vertices"
  const FaceIndicesName: string := "face_indices"

  /** The test the index getter applies to a fetched response, as written: it negates the
      parse result before checking the tag. The tag is only read when the parse fails, and
      then it is whatever the uninitialised variable held, given here as `unsetTag`. */
  predicate IndexMissTest(s: seq<byte>, unsetTag: byte)
  {
    !ParseByteDataStringSucceeds(s) && unsetTag == UintType
  }

  /** Every response the index getter tests is longer than the header, so the negated parse
      result makes the test fail for all of them. */
  lemma IndexMissTestRejectsEveryResponse(s: seq<byte>, unsetTag: byte)
    requires |s| > HeaderLength
    ensures !IndexMissTest(s, unsetTag)
  {
  }

  /** A concrete index response that the getter rejects although it is well formed and the
      decoder accepts it. */
  lemma IndexMissTestRejectsWellFormedResponse()
    ensures var c := Channel(1, 1, [7 as u32]);
            var s := EncodeWordChannel(c, UintType);
            && PayloadCovers(Some(s), UintType, 4)
            && DecodeWordChannel(Some(s), UintType) == Some(c)
            && forall unsetTag: byte :: !IndexMissTest(s, unsetTag)
  {
    var c := Channel(1, 1, [7 as u32]);
    DecodeEncodedWordChannel(c, UintType);
  }

  class MeshClient {
    const serverUrl: string
    const serverUsername: string
    const serverPassword: string
    /** Minimum x, y, z, then maximum x, y, z. */
    const boundingBox: array<real>
    var meshFilters: map<string, FilterRange>
    var floatChannels: map<string, Channel<u32>>
    var indexChannels: map<string, Channel<u32>>
    var ucharChannels: map<string, Channel<byte>>

    ghost predicate Valid()
      reads this
    {
      boundingBox.Length == 6
    }

    constructor (url: string, username: string, password: string)
      ensures Valid() && fresh(boundingBox)
      ensures serverUrl == url && serverUsername == username && serverPassword == password
      ensures boundingBox[..] == [0.0, 0.0, 0.0, 0.0, 0.0, 0.0]
      ensures meshFilters == map[] && floatChannels == map[] && indexChannels == map[] && ucharChannels == map[]
    {
      serverUrl := url;
      serverUsername := username;
      serverPassword := password;
      boundingBox := new real[6](_ => 0.0);
      meshFilters := map[];
      floatChannels := map[];
      indexChannels := map[];
      ucharChannels := map[];
    }

    method SetBoundingBox(minX: real, minY: real, minZ: real, maxX: real, maxY: real, maxZ: real)
      requires Valid()
      modifies boundingBox
      ensures boundingBox[..] == [minX, minY, minZ, maxX, maxY, maxZ]
    {
      boundingBox[0] := minX;
      boundingBox[1] := minY;
      boundingBox[2] := minZ;
      boundingBox[3] := maxX;
      boundingBox[4] := maxY;
      boundingBox[5] := maxZ;
    }

    /** Keeps one range per channel name; a later call for the same name replaces it. */
    method AddFilter(channel: string, minValue: real, maxValue: real)
      modifies this`meshFilters
      ensures meshFilters == old(meshFilters)[channel := FilterRange(minValue, maxValue)]
    {
      meshFilters := meshFilters[channel := FilterRange(minValue, maxValue)];
    }

    /** The request for `attributeName` built from the current box and filters. */
    method BuildJson(attributeName: string) returns (request: Json)
      requires Valid()
      ensures request == Request(attributeName, boundingBox[..], meshFilters)
      ensures RequestedName(request) == Some(attributeName)
      ensures RequestedBox(request) == Some(boundingBox[..])
      ensures RequestedFilters(request) == meshFilters
    {
      request := Request(attributeName, boundingBox[..], meshFilters);
      RequestCarriesName(attributeName, boundingBox[..], meshFilters);
      RequestCarriesBox(attributeName, boundingBox[..], meshFilters);
      RequestCarriesFilters(attributeName, boundingBox[..], meshFilters);
    }

    /** The cached vertices, or else the vertices decoded from `response`, the server's
        answer to a request for them. */
    method GetVertices(response: Option<seq<byte>>) returns (r: Option<Channel<u32>>)
      requires VerticesName !in floatChannels ==> PayloadCovers(response, FloatType, 4)
      ensures VerticesName in floatChannels ==> r == Some(floatChannels[VerticesName])
      ensures VerticesName !in floatChannels ==>
                (r.Some? <==> response.Some? && |response.value| > HeaderLength && response.value[0] == FloatType)
                && r == DecodeWordChannel(response, FloatType)
    {
      if VerticesName in floatChannels {
        return Some(floatChannels[VerticesName]);
      }
      r := DecodeWordChannel(response, FloatType);
    }

    /** The cached face indices, or else those decoded from `response`. */
    method GetIndices(response: Option<seq<byte>>) returns (r: Option<Channel<u32>>)
      requires FaceIndicesName !in indexChannels ==> PayloadCovers(response, UintType, 4)
      ensures FaceIndicesName in indexChannels ==> r == Some(indexChannels[FaceIndicesName])
      ensures FaceIndicesName !in indexChannels ==>
                (r.Some? <==> response.Some? && |response.value| > HeaderLength && response.value[0] == UintType)
                && r == DecodeWordChannel(response, UintType)
    {
      if FaceIndicesName in indexChannels {
        return Some(indexChannels[FaceIndicesName]);
      }
      r := DecodeWordChannel(response, UintType);
    }

    method AddVertices(channel: Channel<u32>) returns (ok: bool)
      modifies this`floatChannels
      ensures ok && floatChannels == old(floatChannels)[VerticesName := channel]
    {
      floatChannels := floatChannels[VerticesName := channel];
      ok := true;
    }

    method AddIndices(channel: Channel<u32>) returns (ok: bool)
      modifies this`indexChannels
      ensures ok && indexChannels == old(indexChannels)[FaceIndicesName := channel]
    {
      indexChannels := indexChannels[FaceIndicesName := channel];
      ok := true;
    }

    /** The float channel `name`: from the cache, or else decoded from `response`. On failure
        the caller's `channel` is left as it was. */
    method GetFloatChannel(group: string, name: string, response: Option<seq<byte>>, channel: Option<Channel<u32>>)
      returns (ok: bool, channel': Option<Channel<u32>>)
      requires name !in floatChannels ==> PayloadCovers(response, FloatType, 4)
      ensures name in floatChannels ==> ok && channel' == Some(floatChannels[name])
      ensures name !in floatChannels ==>
                (ok <==> response.Some? && |response.value| > HeaderLength && response.value[0] == FloatType)
                && (ok ==> channel' == DecodeWordChannel(response, FloatType))
      ensures !ok ==> channel' == channel
    {
      if name in floatChannels {
        return true, Some(floatChannels[name]);
      }
      var decoded := DecodeWordChannel(response, FloatType);
      if decoded.Some? {
        return true, decoded;
      }
      ok, channel' := false, channel;
    }

    /** The index channel `name`: from the cache, or else decoded when the source's test of
        the fetched response holds. That test negates the parse result and reads the tag only
        when the parse fails, so `unsetTag` stands for the uninitialised tag; on every response
        longer than the header the test fails, the getter fails and `channel` is left as it was. */
    method GetIndexChannel(group: string, name: string, response: Option<seq<byte>>, unsetTag: byte,
                           channel: Option<Channel<u32>>)
      returns (ok: bool, channel': Option<Channel<u32>>)
      ensures ok <==> name in indexChannels
      ensures ok ==> channel' == Some(indexChannels[name])
      ensures !ok ==> channel' == channel
    {
      if name in indexChannels {
        return true, Some(indexChannels[name]);
      }
      if response.Some? && |response.value| > HeaderLength {
        IndexMissTestRejectsEveryResponse(response.value, unsetTag);
        if IndexMissTest(response.value, unsetTag) {
          assert false;
        }
      }
      ok, channel' := false, channel;
    }

    /** The byte channel `name`: from the cache, or else, for any response longer than the
        header, the channel the source builds from uninitialised size, width and data, given
        here as `undefined`. */
    method GetUCharChannel(group: string, name: string, response: Option<seq<byte>>, undefined: Channel<byte>,
                           channel: Option<Channel<byte>>)
      returns (ok: bool, channel': Option<Channel<byte>>)
      ensures ok <==> name in ucharChannels || (response.Some? && |response.value| > HeaderLength)
      ensures name in ucharChannels ==> channel' == Some(ucharChannels[name])
      ensures name !in ucharChannels && ok ==> channel' == Some(undefined)
      ensures !ok ==> channel' == channel
    {
      if name in ucharChannels {
        return true, Some(ucharChannels[name]);
      }
      if response.Some? && |response.value| > HeaderLength {
        return true, Some(undefined);
      }
      ok, channel' := false, channel;
    }

    /** Stores `channel` under `name`, replacing any earlier entry; `group` plays no role. */
    method AddFloatChannel(group: string, name: string, channel: Channel<u32>) returns (ok: bool)
      modifies this`floatChannels
      ensures ok && floatChannels == old(floatChannels)[name := channel]
    {
      floatChannels := floatChannels[name := channel];
      ok := true;
    }

    method AddIndexChannel(group: string, name: string, channel: Channel<u32>) returns (ok: bool)
      modifies this`indexChannels
      ensures ok && indexChannels == old(indexChannels)[name := channel]
    {
      indexChannels := indexChannels[name := channel];
      ok := true;
    }

    method AddUCharChannel(group: string, name: string, channel: Channel<byte>) returns (ok: bool)
      modifies this`ucharChannels
      ensures ok && ucharChannels == old(ucharChannels)[name := channel]
    {
      ucharChannels := ucharChannels[name := channel];
      ok := true;
    }
  }
}
