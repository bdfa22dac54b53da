/**
 * paperframe/videos.py: video metadata from a probe, cached per path for
 * the life of the process. The probe (ffmpeg) and frame extraction are
 * oracles; the cache is the module-level dict `VIDEO_INFO_LIST`, here an
 * object the caller owns.
 */
module VideoInfoCache {
  import opened Wrappers

  /**
   * What a successful probe reports: the stream's `nb_frames`, if present,
   * and the count `int(duration * fps)` that stands in for it otherwise
   * (computed in floating point by the source, given here).
   */
  datatype ProbeReport = ProbeReport(nbFrames: Option<nat>, estimatedFrames: nat)

  datatype VideoInfo = VideoInfo(frameCount: nat, report: ProbeReport)

  /** `VideoInfo` as built from a probe (videos.py:41-45). */
  function InfoOf(r: ProbeReport): (v: VideoInfo)
    ensures v.report == r
    ensures r.nbFrames.Some? ==> v.frameCount == r.nbFrames.value
    ensures r.nbFrames.None? ==> v.frameCount == r.estimatedFrames
  {
    VideoInfo(if r.nbFrames.Some? then r.nbFrames.value else r.estimatedFrames, r)
  }

  /** What the probe reports for each path it can read; a path outside the table fails to probe. */
  type Prober = map<string, ProbeReport>

  function Probe(probe: Prober, path: string): Option<ProbeReport>
  {
    if path in probe then Some(probe[path]) else None
  }

  /** Every cached entry is what a probe of its path gives. */
  ghost predicate Agrees(entries: map<string, VideoInfo>, probe: Prober)
  {
    forall p :: p in entries ==> p in probe && entries[p] == InfoOf(probe[p])
  }

  /** What `get_video_info` returns when the cache agrees with the probe: the same as probing afresh. */
  function ProbedInfo(probe: Prober, path: string): Option<VideoInfo>
  {
    match Probe(probe, path)
    case None => None
    case Some(r) => Some(InfoOf(r))
  }

  class VideoCache {
    var entries: map<string, VideoInfo>
    /** The paths handed to the probe, in order. */
    ghost var probed: seq<string>

    constructor ()
      ensures entries == map[] && probed == []
    {
      entries := map[];
      probed := [];
    }

    /**
     * `get_video_info`: a cached path is answered without probing; otherwise
     * the path is probed, a success is stored under it and returned, and a
     * failure returns `None` and stores nothing. Entries are only ever added.
     */
    method GetVideoInfo(path: string, probe: Prober) returns (info: Option<VideoInfo>)
      modifies this
      ensures path in old(entries) ==> info == Some(old(entries)[path]) && entries == old(entries) && probed == old(probed)
      ensures path !in old(entries) ==> probed == old(probed) + [path]
      ensures path !in old(entries) && Probe(probe, path).None? ==> info.None? && entries == old(entries)
      ensures path !in old(entries) && Probe(probe, path).Some? ==>
        info == Some(InfoOf(Probe(probe, path).value)) && entries == old(entries)[path := info.value]
      ensures Agrees(old(entries), probe) ==> Agrees(entries, probe) && info == ProbedInfo(probe, path)
      ensures old(entries).Keys <= entries.Keys && forall p :: p in old(entries) ==> entries[p] == old(entries)[p]
    {
      if path in entries {
        info := Some(entries[path]);
      } else {
        probed := probed + [path];
        var report := Probe(probe, path);
        if report.None? {
          info := None;
        } else {
          info := Some(InfoOf(report.value));
          entries := entries[path := info.value];
        }
      }
    }
  }
}
