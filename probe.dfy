/** What the metadata probe (ffprobe) reports about a file: its streams and the
    container's duration. The probe itself is external; its answer is an input. */
module Probe {
  import opened Wrappers

  /** One stream of the container. Width and height matter only for video
      streams; `codec_name` is `None` when the probe leaves it undefined. */
  datatype Stream = Stream(codecType: string, width: nat, height: nat, codecName: Option<string>)

  /** `metadata.streams`, `metadata.format.duration` and
      `metadata.format.format_name`; a duration that is undefined or NaN is
      `None`, and so is an undefined format name. */
  datatype Metadata = Metadata(streams: seq<Stream>, duration: Option<real>, formatName: Option<string>)

  /** The probe either answers or fails with an error message. */
  type ProbeResult = Result<Metadata, string>

  predicate IsVideo(s: Stream) {
    s.codecType == "video"
  }

  /** `streams.find(s => s.codec_type === 'video')`: the first video stream. */
  function FindVideoStream(streams: seq<Stream>): (r: Option<Stream>)
    ensures r.None? <==> forall i :: 0 <= i < |streams| ==> !IsVideo(streams[i])
    ensures r.Some? ==> exists i :: 0 <= i < |streams| && streams[i] == r.value && IsVideo(r.value)
                                    && forall j :: 0 <= j < i ==> !IsVideo(streams[j])
  {
    if streams == [] then None
    else if IsVideo(streams[0]) then Some(streams[0])
    else
      var r := FindVideoStream(streams[1..]);
      assert r.Some? ==> exists i :: 0 <= i < |streams| - 1 && streams[1..][i] == r.value && IsVideo(r.value)
                                     && forall j :: 0 <= j < i ==> !IsVideo(streams[1..][j]);
      r
  }
}
