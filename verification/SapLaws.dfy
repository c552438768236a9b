// What an announcement makes of the streams it describes.
module SapLaws {
  import opened Basics
  import opened Capture
  import opened FrameLaws
  import opened Frames
  import opened ReplayTraces
  import opened Scoring
  import opened Streams
  import R = Replay
  import Tcp

  // Addressed to the port of the medium, and to its group if it names one.
  ghost predicate Describes(m: SdpMedia, id: Identity) {
    id.dstPort == m.port && (m.connIp.Some? ==> id.dstIp == m.connIp)
  }

  type Telling = SdpMedia -> bool

  ghost function RateOf(id: Identity): Telling {
    (m: SdpMedia) => Describes(m, id) && m.clockHz > 0.0
  }

  ghost function PaceOf(id: Identity): Telling {
    (m: SdpMedia) => Describes(m, id) && m.ptimeMs > 0.0
  }

  ghost function TypeOf(id: Identity): Telling {
    (m: SdpMedia) => Describes(m, id) && m.payloadType.Some?
  }

  // The last medium that tells it, if any does.
  ghost function LastTelling(media: seq<SdpMedia>, tells: Telling): (r: Option<SdpMedia>)
    ensures r.Some? ==> exists i ::
              && 0 <= i < |media| && media[i] == r.value && tells(media[i])
              && forall j :: i < j < |media| ==> !tells(media[j])
    ensures r == None ==> forall j :: 0 <= j < |media| ==> !tells(media[j])
  {
    if media == [] then None
    else if tells(Last(media)) then Some(Last(media))
    else LastTelling(Front(media), tells)
  }

  ghost predicate Reads(s: Stream, was: Stream, rate: Option<SdpMedia>, pace: Option<SdpMedia>, pt: Option<SdpMedia>) {
    && s.clock.hz == (if rate.Some? then rate.value.clockHz else was.clock.hz)
    && s.clock.confirmed == (rate.Some? || was.clock.confirmed)
    && s.clock.ptimeMs == (if pace.Some? then pace.value.ptimeMs else was.clock.ptimeMs)
    && s.marks.expectedPt == (if pt.Some? then pt.value.payloadType else was.marks.expectedPt)
    // and nothing else
    && s == was.(clock := was.clock.(hz := s.clock.hz, confirmed := s.clock.confirmed, ptimeMs := s.clock.ptimeMs),
                 marks := was.marks.(expectedPt := s.marks.expectedPt))
  }

  // An announcement gives a stream the clock rate, the packet time and the payload type of
  // the last media that describe the stream and tell one, and changes nothing else of it.
  lemma {:induction false} EnrichedExactly(s: Stream, media: seq<SdpMedia>)
    ensures Reads(Enriched(s, media), s, LastTelling(media, RateOf(s.id)), LastTelling(media, PaceOf(s.id)),
                  LastTelling(media, TypeOf(s.id)))
  {
    if media != [] {
      EnrichedExactly(s, Front(media));
      EnrichedTouches(s, Front(media));
    }
  }

  // It does so for every stream.
  lemma AnnouncementReachesAll(c: Capture, f: Frame, now: Time, k: Key)
    requires WellFormed(c) && ValidFrame(f) && f.SapFrame?
    ensures var streams := Handled(c, f, now).streams;
            && streams.Keys == c.streams.Keys
            && (k in streams ==>
                  Reads(streams[k], c.streams[k], LastTelling(f.session.media, RateOf(c.streams[k].id)),
                        LastTelling(f.session.media, PaceOf(c.streams[k].id)),
                        LastTelling(f.session.media, TypeOf(c.streams[k].id))))
  {
    hide Enriched, SdpCached, WellFormed, ValidFrame, Reads, LastTelling;
    if k in c.streams {
      EnrichedExactly(c.streams[k], f.session.media);
    }
  }

  // ---- In a replay -----------------------------------------------------------

  // The payload type a stream was announced with, whether it was read as RTP, its addresses,
  // and when it was heard.
  datatype Announced = Announced(payloadType: Option<nat>, rtp: bool, id: Identity, heard: Option<Time>)

  ghost function AnnouncedAs(s: Stream): Announced {
    Announced(s.marks.expectedPt, s.count.rtpSeen, s.id, Heard(s))
  }

  ghost function Announcement(k: Key): Capture -> Option<Announced> {
    (c: Capture) => if k in c.streams then Some(AnnouncedAs(c.streams[k])) else None
  }

  ghost function Reannounced(a: Announced, media: seq<SdpMedia>): Announced {
    var m := LastTelling(media, TypeOf(a.id));
    if m.Some? then a.(payloadType := m.value.payloadType) else a
  }

  // Its own packets make it heard, from the first one on; announcements describe it.
  ghost function Describing(k: Key): Hearing<Announced> {
    (o: Option<Announced>, c: Capture, p: Packet, now: Time) =>
      match p.frame
      case MediaFrame(key, created, _, _, _, _, rtp) =>
        if key != k then o
        else if rtp.Some? then Some(UnwrapOr(o, AnnouncedAs(created)).(rtp := true, heard := Some(now)))
        else Some(UnwrapOr(o, AnnouncedAs(created)))
      case DanteAudio(key, created, _, _, _, rtp) =>
        var before := UnwrapOr(o, AnnouncedAs(created));
        if key == k then Some(before.(rtp := before.rtp || rtp.Some?, heard := Some(now))) else o
      case SapFrame(session, _) => if o.Some? then Some(Reannounced(o.value, session.media)) else o
      case _ => o
  }

  ghost function StillHeard(): Keeping<Announced> {
    (a: Announced, c: Capture, now: Time) => a.heard == None || now < a.heard.value + 20 * SECOND
  }

  lemma SequenceKeepsRtp(c: Counts, sn: nat)
    ensures CountSequence(c, sn).rtpSeen == c.rtpSeen
  {}

  lemma UpdateKeepsAnnounced(s: Stream, p: RtpPacket, now: Time)
    requires s.clock.hz > 0.0
    ensures AnnouncedAs(Updated(s, p, now)) == AnnouncedAs(s).(rtp := true, heard := Some(now))
  {
    hide CountSequence, ReadTimestamp, ObserveGap, FilterJitter, SampleIat;
    SequenceKeepsRtp(CountPacket(s.count).(rtpSeen := true), p.sn);
  }

  lemma MediaKeepsAnnounced(s: Stream, f: Frame, now: Time)
    requires (f.MediaFrame? || f.DanteAudio?) && s.clock.hz > 0.0
    ensures f.MediaFrame? ==>
              AnnouncedAs(MediaSeen(s, f, now))
              == if f.rtp.Some? then AnnouncedAs(s).(rtp := true, heard := Some(now)) else AnnouncedAs(s)
    ensures f.DanteAudio? ==>
              AnnouncedAs(DanteAudioSeen(s, f, now))
              == AnnouncedAs(s).(rtp := s.count.rtpSeen || f.rtp.Some?, heard := Some(now))
  {
    hide Updated;
    forall x: Stream, p: RtpPacket | x.clock.hz > 0.0
      ensures AnnouncedAs(Updated(x, p, now)) == AnnouncedAs(x).(rtp := true, heard := Some(now))
    {
      UpdateKeepsAnnounced(x, p, now);
    }
  }

  lemma SapDescribes(c: Capture, f: Frame, now: Time, k: Key)
    requires WellFormed(c) && ValidFrame(f) && f.SapFrame?
    ensures Announcement(k)(Handled(c, f, now)) ==
            if k in c.streams then Some(Reannounced(AnnouncedAs(c.streams[k]), f.session.media)) else None
  {
    hide Handled, LastTelling;
    AnnouncementReachesAll(c, f, now, k);
  }

  lemma SegmentDescribesNothing(c: Capture, f: Frame, now: Time, k: Key)
    requires WellFormed(c) && ValidFrame(f) && f.TcpFrame? && k.Media?
    ensures Announcement(k)(Handled(c, f, now)) == Announcement(k)(c)
  {
    hide Tcp.Seen, Tcp.HealthMarks, WellFormed;
  }

  lemma MediaDescribes(c: Capture, f: Frame, now: Time, k: Key)
    requires WellFormed(c) && ValidFrame(f) && (f.MediaFrame? || f.DanteAudio?)
    ensures Announcement(k)(Handled(c, f, now)) ==
            Describing(k)(Announcement(k)(c), c, Packet(f, 0, false), now)
  {
    hide MediaSeen, DanteAudioSeen, EcnMarked, AnnouncedAs, Reannounced;
    if f.key == k {
      MediaKeepsAnnounced(StreamOr(c, k, f.created), f, now);
      HeardAs(StreamOr(c, k, f.created));
    }
  }

  lemma HeardAs(s: Stream)
    ensures AnnouncedAs(s).heard == Heard(s) && AnnouncedAs(s).rtp == s.count.rtpSeen
  {}

  lemma FrameDescribes(c: Capture, p: Packet, now: Time, k: Key)
    requires WellFormed(c) && ValidFrame(p.frame) && k.Media?
    ensures Announcement(k)(Handled(c, p.frame, now)) == Describing(k)(Announcement(k)(c), c, p, now)
  {
    hide Handled, AnnouncedAs, Reannounced, WellFormed, ValidFrame;
    var f := p.frame;
    if f.SapFrame? {
      SapDescribes(c, f, now, k);
    } else if f.TcpFrame? {
      SegmentDescribesNothing(c, f, now, k);
    } else if f.MediaFrame? || f.DanteAudio? {
      MediaDescribes(c, f, now, k);
    } else {
      StreamsUntouched(c, f, now);
    }
  }

  lemma CloseDescribes(c: Capture, now: Time, k: Key)
    ensures Announcement(k)(Closed(c, now)) ==
            if k in c.streams && StillHeard()(AnnouncedAs(c.streams[k]), Closed(c, now), now)
            then Announcement(k)(c) else None
  {
    hide Closed;
    R.CloseOfStreams(c, now);
  }

  // At any point of any replay the payload type expected of a stream is the one its entry
  // was created with or the one announced last for its address since, and it counts as RTP
  // once one of its packets was.
  lemma AnnouncementOfReplay(wall: Time, file: seq<R.PcapPacket>, k: Key)
    requires R.ValidFile(file) && k.Media?
    ensures Announcement(k)(R.Run(wall, file).capture) == Traced(wall, file, Describing(k), StillHeard())
  {
    hide R.Run, Traced, Processed, Closed, Handled, WellFormed, ValidFrame, Reannounced, AnnouncedAs;
    var look, heard, kept := Announcement(k), Describing(k), StillHeard();
    forall c: Capture, p: Packet, now: Time | WellFormed(c) && ValidFrame(p.frame)
      ensures look(Processed(c, p, now)) == heard(look(c), c, p, now)
    {
      PacketIsFrame(c, p, now);
      FrameDescribes(Counted(c), p, now, k);
    }
    forall c: Capture, now: Time
      ensures look(Closed(c, now)) ==
              if look(c).Some? && kept(look(c).value, Closed(c, now), now) then look(c) else None
    {
      CloseDescribes(c, now, k);
    }
    TracedIs(wall, file, look, heard, kept);
  }
}
