// What every frame keeps, whatever its kind.
module FrameLaws {
  import opened Basics
  import opened Capture
  import opened Frames
  import opened Scoring
  import opened Streams
  import Dante
  import Tcp
  import Timing

  ghost function Heard(s: Stream): Option<Time> {
    s.arrive.lastPacketTime
  }

  // No entry disappears, and an entry is heard now, or as it was, or it is new and silent.
  ghost predicate Touches(before: map<Key, Stream>, after: map<Key, Stream>, now: Time) {
    && before.Keys <= after.Keys
    && forall k :: k in after ==>
         || Heard(after[k]) == Some(now)
         || (k in before && Heard(after[k]) == Heard(before[k]))
         || (k !in before && Heard(after[k]) == None)
  }

  lemma UpdatedIsHeard(s: Stream, p: RtpPacket, now: Time)
    requires s.clock.hz > 0.0
    ensures Heard(Updated(s, p, now)) == Some(now)
    ensures Updated(s, p, now).clock.hz > 0.0
  {
    hide CountRtp, ReadTimestamp, CheckTimestamp, CollectDelta, ObserveGap, FilterJitter, MarkSource, SampleIat;
  }

  lemma MediaTouches(s: Stream, f: Frame, now: Time)
    requires f.MediaFrame? && s.clock.hz > 0.0
    ensures MediaSeen(s, f, now).clock.hz > 0.0
    ensures Heard(MediaSeen(s, f, now)) == if f.rtp.Some? then Some(now) else Heard(s)
  {
    hide Updated;
    if f.rtp.Some? {
      var marks := PcpAdvised(Marked(s.marks, f.dscpOk), f.pcp);
      var mismatch := if marks.expectedPt.Some? && marks.expectedPt.value != f.payloadType then 1 else 0;
      UpdatedIsHeard(s.(marks := marks.(ptMismatches := marks.ptMismatches + mismatch)), f.rtp.value, now);
    }
  }

  lemma DanteAudioTouches(s: Stream, f: Frame, now: Time)
    requires f.DanteAudio? && s.clock.hz > 0.0
    ensures DanteAudioSeen(s, f, now).clock.hz > 0.0
    ensures Heard(DanteAudioSeen(s, f, now)) == Some(now)
  {
    hide Updated;
    var routed := s.(transmitter := s.transmitter.(minTtl := Timing.LowerTtl(s.transmitter.minTtl, f.ttl)));
    if f.rtp.Some? {
      UpdatedIsHeard(routed, f.rtp.value, now);
    }
  }

  lemma {:induction false} EnrichedTouches(s: Stream, media: seq<SdpMedia>)
    ensures Heard(Enriched(s, media)) == Heard(s)
    ensures s.clock.hz > 0.0 ==> Enriched(s, media).clock.hz > 0.0
    ensures s.clock.confirmed ==> Enriched(s, media).clock.confirmed
    ensures Enriched(s, media).count == s.count && Enriched(s, media).id == s.id
    ensures Enriched(s, media).arrive == s.arrive && Enriched(s, media).transmitter == s.transmitter
  {
    if media != [] {
      EnrichedTouches(s, Front(media));
    }
  }

  lemma TcpTouches(c: Capture, f: Frame, now: Time)
    requires f.TcpFrame? && WellFormed(c)
    ensures WellFormed(TcpHandled(c, f, now))
    ensures Touches(c.streams, TcpHandled(c, f, now).streams, now)
  {
    hide Tcp.Seen, Tcp.HealthMarks;
  }

  // Putting one stream into the map.
  lemma EntryTouches(c: Capture, key: Key, created: Stream, s: Stream, now: Time)
    requires WellFormed(c) && key.Media? && s.clock.hz > 0.0 && Heard(created) == None
    requires Heard(s) == Some(now) || Heard(s) == Heard(StreamOr(c, key, created))
    ensures Touches(c.streams, c.streams[key := s], now)
    ensures WellFormed(c.(streams := c.streams[key := s]))
  {}

  lemma SapTouches(c: Capture, session: Session, now: Time)
    requires WellFormed(c)
    ensures var streams := EnrichedAll(c.streams, session.media);
            Touches(c.streams, streams, now) && WellFormed(c.(streams := streams))
  {
    hide Enriched;
    forall k | k in c.streams
      ensures Heard(Enriched(c.streams[k], session.media)) == Heard(c.streams[k])
      ensures c.streams[k].clock.hz > 0.0 ==> Enriched(c.streams[k], session.media).clock.hz > 0.0
    {
      EnrichedTouches(c.streams[k], session.media);
    }
  }

  lemma StreamsUntouched(c: Capture, f: Frame, now: Time)
    requires WellFormed(c) && ValidFrame(f)
    requires !f.MediaFrame? && !f.DanteAudio? && !f.TcpFrame? && !f.SapFrame?
    ensures Handled(c, f, now).streams == c.streams
  {
    hide AvtpHandled, PtpHandled, Declared, Dante.Handled;
  }

  lemma FrameTouches(c: Capture, f: Frame, now: Time)
    requires WellFormed(c) && ValidFrame(f)
    ensures WellFormed(Handled(c, f, now))
    ensures Touches(c.streams, Handled(c, f, now).streams, now)
  {
    hide MediaSeen, DanteAudioSeen, Enriched, TcpHandled, SdpCached, Touches, EcnMarked;
    match f {
      case MediaFrame(key, created, _, _, _, _, _) =>
        MediaTouches(StreamOr(c, key, created), f, now);
        EntryTouches(c, key, created, MediaSeen(StreamOr(c, key, created), f, now), now);
      case DanteAudio(key, created, _, _, _, _) =>
        DanteAudioTouches(StreamOr(c, key, created), f, now);
        EntryTouches(c, key, created, DanteAudioSeen(StreamOr(c, key, created), f, now), now);
      case TcpFrame(_, _, _, _, _) => TcpTouches(c, f, now);
      case SapFrame(session, _) => SapTouches(c, session, now);
      case _ =>
        StreamsUntouched(c, f, now);
        NothingTouched(c.streams, now);
    }
  }

  lemma NothingTouched(streams: map<Key, Stream>, now: Time)
    ensures Touches(streams, streams, now)
  {}

  lemma PacketTouches(c: Capture, p: Packet, now: Time)
    requires WellFormed(c) && ValidFrame(p.frame)
    ensures WellFormed(Processed(c, p, now))
    ensures Touches(c.streams, Processed(c, p, now).streams, now)
  {
    hide Handled;
    FrameTouches(c.(traffic := c.traffic.(dispatched := c.traffic.dispatched + 1)), p.frame, now);
  }

  lemma SameStreamsWellFormed(c: Capture, d: Capture)
    requires WellFormed(c) && d.streams == c.streams
    ensures WellFormed(d)
  {}

  // ---- Parts of the state ---------------------------------------------------

  // Connections, AVTP entries and clock domains change with frames of their own kind only.
  lemma EntriesUntouched(c: Capture, f: Frame, now: Time)
    requires WellFormed(c) && ValidFrame(f)
    ensures !f.TcpFrame? ==> Handled(c, f, now).tcp == c.tcp
    ensures !f.AvtpFrame? ==> Handled(c, f, now).avb.streams == c.avb.streams
    ensures !f.PtpFrame? ==> Handled(c, f, now).ptp == c.ptp
  {
    hide MediaSeen, DanteAudioSeen, EnrichedAll, SdpCached, EcnMarked, NdiHeard, AvtpHandled, PtpHandled, Declared;
    hide Dante.Handled, Tcp.Seen, Tcp.HealthMarks, WellFormed, ValidFrame, NdiRecorded, IsNdi;
  }

  // The history the checks keep changes at closes only, and the query record with
  // general queries only.
  lemma HistoryUntouched(c: Capture, f: Frame, now: Time)
    requires WellFormed(c) && ValidFrame(f)
    ensures Handled(c, f, now).countHistory == c.countHistory
    ensures Handled(c, f, now).suspectCycles == c.suspectCycles
    ensures !f.GeneralQuery? ==>
              && Handled(c, f, now).health.lastQuery == c.health.lastQuery
              && Handled(c, f, now).health.queryInterval == c.health.queryInterval
              && Handled(c, f, now).igmp.querierVersion == c.igmp.querierVersion
              && Handled(c, f, now).igmp.queriers == c.igmp.queriers
  {
    hide MediaSeen, DanteAudioSeen, EnrichedAll, SdpCached, NdiHeard, AvtpHandled, PtpHandled, Declared;
    hide Dante.Handled, Tcp.Seen, Tcp.HealthMarks, WellFormed, ValidFrame, NdiRecorded, IsNdi;
  }

  // ---- Kinds of frames ------------------------------------------------------

  predicate TouchesStreams(f: Frame) {
    f.MediaFrame? || f.DanteAudio? || f.TcpFrame? || f.SapFrame?
  }

  predicate TouchesAvb(f: Frame) {
    f.AvtpFrame? || f.MsrpFrame? || f.MvrpFrame? || f.AdpAvailable? || f.AdpDeparting?
  }

  predicate TouchesIgmp(f: Frame) {
    f.IgmpJoin? || f.IgmpLeave? || f.IgmpV3Report?
  }

  // Every frame changes the parts of the state of its own kind only.
  lemma FrameStaysInside(c: Capture, f: Frame, now: Time)
    requires WellFormed(c) && ValidFrame(f)
    ensures var r := Handled(c, f, now);
            && (TouchesStreams(f) ==>
                  r == c.(streams := r.streams, tcp := r.tcp, health := r.health, sdpCache := r.sdpCache))
            && (TouchesAvb(f) ==> r == c.(avb := r.avb))
            && (TouchesIgmp(f) || f.GeneralQuery? ==> r == c.(igmp := r.igmp, health := r.health))
            && (f.PtpFrame? ==> r == c.(ptp := PtpHandled(c.ptp, f.info, now)))
            && (f.DanteFrame? ==> r == c.(dante := Dante.Handled(c.dante, f.e, f.victim, now)))
            && (f.NdiDiscovery? ==> r == c.(ndiSources := NdiRecorded(c, f.ip, f.victim)))
            && (f.LldpEee? ==> r == c.(eee := c.eee[f.port := f.wake]))
            && (f.FlowControl? ==> r == c.(traffic := r.traffic))
            && (f.Unmonitored? ==> r == c)
  {
    hide MediaSeen, DanteAudioSeen, EnrichedAll, SdpCached, EcnMarked, NdiHeard, AvtpHandled, PtpHandled, Declared;
    hide Dante.Handled, Tcp.Seen, Tcp.HealthMarks, WellFormed, ValidFrame, NdiRecorded, IsNdi;
  }

  // ---- Bounded maps ---------------------------------------------------------

  // Victims the source could have picked.
  ghost predicate LegalFrame(c: Capture, f: Frame) {
    match f
    case DanteFrame(e, victim) => Dante.MayEvict(c.dante, e.src, victim)
    case NdiDiscovery(ip, victim) =>
      ip !in c.ndiSources && |c.ndiSources| >= Dante.MAX_SOURCES ==> victim in c.ndiSources
    case SapFrame(session, stale) =>
      MayDropSession(c.(streams := EnrichedAll(c.streams, session.media)), session, stale)
    case _ => true
  }

  ghost predicate BoundedMaps(c: Capture) {
    && Dante.Bounded(c.dante)
    && |c.ndiSources| <= 4096
    && |c.sdpCache| <= 1024
  }

  lemma SdpCacheStaysBounded(c: Capture, s: Session, victim: string)
    requires |c.sdpCache| <= 1024 && MayDropSession(c, s, victim)
    ensures |SdpCached(c, s, victim)| <= 1024
    ensures s.id in SdpCached(c, s, victim)
  {
    if SessionEvicts(c, s) {
      assert (c.sdpCache - {victim}).Keys == c.sdpCache.Keys - {victim};
      assert |c.sdpCache.Keys - {victim}| == |c.sdpCache.Keys| - 1;
      assert SdpCached(c, s, victim).Keys == (c.sdpCache.Keys - {victim}) + {s.id};
    } else if s.id in c.sdpCache {
      assert SdpCached(c, s, victim).Keys == c.sdpCache.Keys;
    }
  }

  // Packets have reached a stream at a port of the session, whatever its address.
  ghost predicate CarriesPackets(s: Session, streams: map<Key, Stream>) {
    exists m, k :: m in s.media && k in streams && streams[k].count.packets > 0 && streams[k].id.dstPort == m.port
  }

  // Announcing a session loses a live one only when every cached session is live.
  lemma LiveSessionDroppedOnlyIfAllLive(c: Capture, s: Session, victim: string, id: string)
    requires MayDropSession(c, s, victim)
    requires id in c.sdpCache && id !in SdpCached(c, s, victim)
    ensures |c.sdpCache| >= 1024 && s.id !in c.sdpCache
    ensures CarriesPackets(c.sdpCache[id], c.streams) ==>
              forall other :: other in c.sdpCache ==> CarriesPackets(c.sdpCache[other], c.streams)
  {
    assert id == victim;
    forall x: Session ensures SessionLive(x, c.streams) <==> CarriesPackets(x, c.streams) {}
    hide SessionLive, CarriesPackets;
  }

  // Only three kinds of frame touch the bounded maps.
  lemma BoundedMapsUntouched(c: Capture, f: Frame, now: Time)
    requires WellFormed(c) && ValidFrame(f) && !f.DanteFrame? && !f.NdiDiscovery? && !f.SapFrame?
    ensures var r := Handled(c, f, now);
            r.dante == c.dante && r.ndiSources == c.ndiSources && r.sdpCache == c.sdpCache
  {
    hide MediaSeen, DanteAudioSeen, Enriched, AvtpHandled, PtpHandled, Declared, EcnMarked;
    hide Tcp.Seen, Tcp.HealthMarks, NdiHeard;
  }

  lemma NdiStaysBounded(c: Capture, ip: Ip, victim: Ip)
    requires |c.ndiSources| <= 4096
    requires ip !in c.ndiSources && |c.ndiSources| >= Dante.MAX_SOURCES ==> victim in c.ndiSources
    ensures |NdiRecorded(c, ip, victim)| <= 4096 && ip in NdiRecorded(c, ip, victim)
  {
    if ip !in c.ndiSources && |c.ndiSources| >= Dante.MAX_SOURCES {
      assert |c.ndiSources - {victim}| == |c.ndiSources| - 1;
    }
  }

  // Whatever frame arrives and whichever entries are evicted, the maps keyed by
  // addresses and session identifiers stay within their capacities.
  lemma FrameKeepsBounds(c: Capture, f: Frame, now: Time)
    requires WellFormed(c) && ValidFrame(f) && LegalFrame(c, f) && BoundedMaps(c)
    ensures BoundedMaps(Handled(c, f, now))
  {
    hide Enriched, Dante.Bounded, Dante.Handled, NdiRecorded, SdpCached, MayDropSession;
    match f {
      case DanteFrame(e, victim) => DanteFrameKeepsBounds(c.dante, e, victim, now);
      case NdiDiscovery(ip, victim) => NdiStaysBounded(c, ip, victim);
      case SapFrame(session, stale) =>
        var enriched := c.(streams := EnrichedAll(c.streams, session.media));
        SdpCacheStaysBounded(enriched, session, stale);
      case _ => BoundedMapsUntouched(c, f, now);
    }
  }

  lemma DanteFrameKeepsBounds(d: Dante.Dante, e: Dante.Event, victim: Ip, now: Time)
    requires Dante.Bounded(d) && Dante.MayEvict(d, e.src, victim)
    ensures Dante.Bounded(Dante.Handled(d, e, victim, now))
  {
    Dante.BoundedStep(d, Dante.Frame(e, victim, now));
  }
}
