/** The protocol writers and appenders themselves never fault on what the state machine and the packer ask of
    them: a begun packet is accepted, its length is the one the state computed, a template has the length it
    was reserved with, and only a record can be refused. */
module WriterAgreement {
  import opened Base
  import opened Sizes
  import SM = StateModel
  import SL = StateLaws
  import ST = StateTheorems
  import PL = PackerLaws
  import SA = SizeAgreement
  import SR = SourceRecords
  import O = Outsides
  import H = Headers
  import W = Wire
  import WQ = WireRequests

  /** Shape `index` of the state's catalog is this wire shape, one its writer can write. */
  ghost predicate Catalogued(c: SM.Config, index: nat, shape: W.WireShape)
  {
    && index < |c.shapes| && shape.version == c.version && W.LegalShape(shape) && WQ.ShapeError(shape) == None
    && c.shapes[index] == SA.ShapeOf(shape)
  }

  /** The request BeginDataStream makes of the appender; the preview makes the same one. */
  function RequestFor(c: SM.Config, header: SM.Header, shape: W.WireShape): WQ.StreamRequest
  {
    WQ.StreamRequest(header, shape, c.maxDatagram, c.maxRecords)
  }

  /** The request of a template packet. */
  function TemplateRequest(c: SM.Config, header: SM.Header, shape: W.WireShape): WQ.BatchRequest
  {
    WQ.BatchRequest(header, if c.version == V9 then 1 else 0, shape, [], 1, W.TemplateBytes(shape), 0, c.maxDatagram)
  }

  /** A wire error as the packer tells it apart. */
  function Seen(error: W.WireError): SM.Error
  {
    match error
    case InvalidValue => SM.ErrInvalidValue
    case RecordValueLimit => SM.ErrRecordValueLimit
    case InvalidFamily => SM.ErrInvalidFamily
    case OutOfBounds => SM.ErrBounds
    case ShortBuffer => SM.ErrShortBuffer
    case _ => SM.ErrAppender
  }

  function SeenOption(error: Option<W.WireError>): Option<SM.Error>
  {
    if error == None then None else Some(Seen(error.value))
  }

  // ---- sizes of mapped records ----------------------------------------------------------

  lemma {:induction false} ValuesRefusal(fields: seq<W.FieldSpec>, values: seq<W.WireValue>, v: Version)
    requires |fields| == |values| && forall k :: 0 <= k < |fields| ==> W.ValidField(v, fields[k])
    ensures W.ValuesLength(fields, values).Err? ==>
      W.ValuesLength(fields, values).error in {W.InvalidValue, W.OutOfBounds}
  {
    hide W.FixedFits;
    if fields != [] {
      ValuesRefusal(fields[1..], values[1..], v);
    }
  }

  /** A record that mapping built can be sized, or is refused for a reason of its own: the packer never
      takes it for an internal failure. */
  lemma MappedSizeIsRejection(shape: W.WireShape, record: W.Record)
    requires W.LegalShape(shape) && W.FirstValueError(record.values, record.family) == None
    ensures W.RecordSize(shape, record).Err? ==> O.IsRecordRejection(Seen(W.RecordSize(shape, record).error))
  {
    hide W.ValuesLength;
    if |record.values| == |shape.fields| {
      ValuesRefusal(shape.fields, record.values, shape.version);
    }
  }

  /** Every time an IPFIX NTP field carries has a stamp. */
  ghost predicate Stampable(shape: W.WireShape, record: W.Record)
  {
    shape.version == IPFIX ==>
      forall k :: 0 <= k < |record.values| && record.values[k].TimeV? ==>
        SA.MappedTime(IPFIX, false, None, record.values[k].nanos)
  }

  /** Nor does the appender refuse such a record for any other reason. */
  lemma AppendIsRejection(r: WQ.StreamRequest, accepted: seq<W.Record>, capacity: nat, record: W.Record)
    requires W.LegalShape(r.shape) && W.FirstValueError(record.values, record.family) == None
    requires Stampable(r.shape, record)
    ensures WQ.AppendError(r, accepted, capacity, record).Some? ==>
      O.IsRecordRejection(Seen(WQ.AppendError(r, accepted, capacity, record).value))
  {
    hide W.ValuesLength, W.LegalShape, DataSetSize, W.RecordsSize, W.Minimum, W.HasVariable;
    MappedSizeIsRejection(r.shape, record);
    if r.shape.version == IPFIX && W.RecordSize(r.shape, record).Ok? {
      forall k | 0 <= k < |record.values| && record.values[k].TimeV?
        ensures W.NtpTimestamp(record.values[k].nanos).Some?
      {
        SA.MappedTimeHasStamp(record.values[k].nanos);
      }
    }
  }

  // ---- Begin, Finish and Encode ---------------------------------------------------------

  lemma CataloguedFits(c: SM.Config, index: nat, shape: W.WireShape)
    requires SM.ValidConfig(c) && Catalogued(c, index, shape)
    ensures 128 <= c.maxDatagram <= MAX_UINT16 && 1 <= c.maxRecords <= WQ.ProtocolCap(c.version)
    ensures c.version != V5 ==>
      HeaderBytes(c.version) + W.TemplateBytes(shape) <= c.maxDatagram && W.TemplateBytes(shape) <= MAX_TEMPLATE_BYTES
  {
    hide W.LegalShape, WQ.ShapeError, W.TemplateBytes, W.Minimum, W.HasVariable;
  }

  /** The appender begins every data packet the state reserves. */
  lemma BeginNeverFails(c: SM.Config, s: SM.St, wall: nat, mono: nat, index: nat, shape: W.WireShape, sampling: nat)
    requires SL.Inv(c, s) && Catalogued(c, index, shape)
    requires SM.BeginStream(c, s, wall, mono, index, c.maxDatagram, sampling, true).1.Done?
    ensures var p := SM.BeginStream(c, s, wall, mono, index, c.maxDatagram, sampling, true).1.value;
      WQ.BeginError(c.version, RequestFor(c, p.header, shape), c.maxDatagram) == None
  {
    hide SL.Core, SL.PendingOk, H.WriterAccepts, SM.ValidHeader, W.LegalShape, WQ.ShapeError;
    ST.StreamHeaderIsWritable(c, s, wall, mono, index, c.maxDatagram, sampling, true);
    CataloguedFits(c, index, shape);
  }

  /** What the appender finishes has exactly the length the state computed, so Finish succeeds. */
  lemma FinishNeverFails(c: SM.Config, s: SM.St, fill: PL.Fill, header: SM.Header, shape: W.WireShape,
                         accepted: seq<W.Record>)
    requires SL.Inv(c, s) && PL.Filling(c, s, fill) && Catalogued(c, fill.shape, shape)
    requires fill.records == |accepted| > 0 && fill.bytes == W.RecordsSize(shape, accepted)
    ensures WQ.FinishError(RequestFor(c, header, shape), accepted, c.maxDatagram) == None
    ensures W.SetSizeOf(shape, W.RecordsSize(shape, accepted), |accepted|).Some?
    ensures s.pending.value.shape < |c.shapes|
    ensures var length := HeaderBytes(c.version) + W.SetSizeOf(shape, W.RecordsSize(shape, accepted), |accepted|).value.length;
      SM.Finish(c, s, Some(length)).1 == SM.Done(length)
  {
    hide SL.Core, SL.PendingOk, W.LegalShape, WQ.ShapeError, DataSetSize, W.RecordsSize, W.Minimum, W.HasVariable,
         W.TemplateBytes,
         SM.Finish;
    CataloguedFits(c, fill.shape, shape);
    var length := s.pending.value.length;
    PL.StreamFinishes(c, s, fill, Some(length));
  }

  /** The batch writer writes every template the state reserves, at exactly the reserved length. */
  lemma EncodeNeverFails(c: SM.Config, s: SM.St, wall: nat, mono: nat, index: nat, shape: W.WireShape)
    requires SL.Inv(c, s) && Catalogued(c, index, shape) && SM.BeginTemplate(c, s, wall, mono, index).1.Done?
    ensures var (t, r) := SM.BeginTemplate(c, s, wall, mono, index);
      && t.pending.Some?
      && WQ.BatchLength(c.version, TemplateRequest(c, r.value.header, shape), c.maxDatagram) == W.Ok(r.value.length)
      && SM.Encode(t, Some(r.value.length)).1 == SM.Done(r.value.length)
  {
    hide SL.Core, SL.PendingOk, H.WriterAccepts, SM.ValidHeader, W.LegalShape, WQ.ShapeError, W.TemplateBytes,
         W.Minimum, W.HasVariable;
    ST.TemplateHeaderIsWritable(c, s, wall, mono, index);
    CataloguedFits(c, index, shape);
    assert 1 * W.TemplateBytes(shape) == W.TemplateBytes(shape);
  }

  // ---- the preview ----------------------------------------------------------------------

  /** The validation appender gives a record the answer it would get as the first of a packet reserved at the
      same instant. */
  lemma PreviewAgrees(c: SM.Config, s: SM.St, wall: nat, mono: nat, index: nat, shape: W.WireShape, sampling: nat,
                      record: W.Record)
    requires SL.Inv(c, s) && Catalogued(c, index, shape) && PL.Carried(c, sampling)
    requires PL.Resting(s) && SM.MarkDue(c, s, mono) == s && !s.refreshDue && !s.refreshActive
    requires SM.BeginStream(c, s, wall, mono, index, c.maxDatagram, sampling, true).1.Done?
    requires W.RecordSize(shape, record).Ok?
    requires SR.MinimumMisfit(c, index, SM.Done(W.RecordSize(shape, record).value)) == None
    ensures SM.HeaderFor(c, s, SM.Clamp(s, wall), sampling).Done?
    ensures var (t, p) := SM.BeginStream(c, s, wall, mono, index, c.maxDatagram, sampling, true);
      var header := SM.HeaderFor(c, s, SM.Clamp(s, wall), sampling).value;
      var preview := WQ.AppendError(RequestFor(c, header, shape), [], c.maxDatagram, record);
      && t.pending.Some? && t.pending.value.stream.Some? && t.pending.value.shape < |c.shapes|
      && var answer := WQ.AppendError(RequestFor(c, p.value.header, shape), [], c.maxDatagram, record);
         SM.Append(c, t, SM.Done(W.RecordSize(shape, record).value), sampling, SeenOption(answer)).1 == SeenOption(preview)
  {
    hide SL.Core, SL.PendingOk, W.LegalShape, WQ.ShapeError, DataSetSize, WQ.AppendError, W.RecordSize, SM.Append,
         SR.MinimumMisfit;
    PreviewHeader(c, s, wall, mono, index, sampling);
    var (t, p) := SM.BeginStream(c, s, wall, mono, index, c.maxDatagram, sampling, true);
    var answer := WQ.AppendError(RequestFor(c, p.value.header, shape), [], c.maxDatagram, record);
    FreshAppends(c, t, W.RecordSize(shape, record).value, sampling, SeenOption(answer));
  }

  lemma PreviewHeader(c: SM.Config, s: SM.St, wall: nat, mono: nat, index: nat, sampling: nat)
    requires SL.Inv(c, s) && index < |c.shapes|
    requires SM.MarkDue(c, s, mono) == s
    requires SM.BeginStream(c, s, wall, mono, index, c.maxDatagram, sampling, true).1.Done?
    ensures var (t, p) := SM.BeginStream(c, s, wall, mono, index, c.maxDatagram, sampling, true);
      && SM.HeaderFor(c, s, SM.Clamp(s, wall), sampling) == SM.Done(p.value.header)
      && t.pending == Some(p.value) && p.value.shape == index && !p.value.encoded
      && p.value.stream == Some(SM.Stream(sampling, 0, 0, c.maxDatagram, 0))
  {
    hide SL.Core, SL.PendingOk;
  }

  lemma FreshAppends(c: SM.Config, t: SM.St, bytes: nat, sampling: nat, appender: Option<SM.Error>)
    requires SM.ValidConfig(c) && t.pending.Some? && !t.pending.value.encoded && t.pending.value.shape < |c.shapes|
    requires t.pending.value.stream == Some(SM.Stream(sampling, 0, 0, c.maxDatagram, 0)) && PL.Carried(c, sampling)
    requires SR.MinimumMisfit(c, t.pending.value.shape, SM.Done(bytes)) == None
    ensures SM.Append(c, t, SM.Done(bytes), sampling, appender).1 == appender
  {
    hide SM.AppendError, SR.MinimumMisfit;
    SA.FirstAppendFits(c, t.pending.value, bytes, sampling, appender);
  }

  /** And what it accepts it finishes. */
  lemma PreviewFinishes(r: WQ.StreamRequest, capacity: nat, record: W.Record)
    requires WQ.AppendError(r, [], capacity, record) == None
    ensures WQ.FinishError(r, [record], capacity) == None
  {
    hide DataSetSize, W.RecordSize, W.Minimum, W.HasVariable;
    assert W.RecordsSize(r.shape, [record]) == W.RecordsSize(r.shape, []) + W.SizeOf(r.shape, record);
  }

  // ---- blame ----------------------------------------------------------------------------

  /** An answer of an appender or of the template writer. */
  predicate FromWriter(a: O.Answer)
  {
    !a.ClockAnswer? && !a.AvailableAnswer? && !a.WriteAnswer?
  }

  predicate FromOutside(q: SR.Request, a: O.Answer)
  {
    || (a.ClockAnswer? && !SL.Usable(q.config, q.TimeOrigin(), a.wall))
    || (a.WriteAnswer? && !(0 <= a.n <= a.length))
  }

  /** With writers that never fault, an internal failure is due to a spent epoch, to an instant the epoch
      cannot use, or to a transport that claims an impossible byte count. */
  lemma BlameIsOutside(q: SR.Request, answers: seq<O.Answer>)
    requires SR.Blamed(q, answers)
    requires forall a :: a in answers && FromWriter(a) ==> !O.IsFault(q.config, q.TimeOrigin(), a)
    ensures q.start.exhausted || exists a :: a in answers && FromOutside(q, a)
  {
    if !q.start.exhausted {
      var a :| a in answers && O.IsFault(q.config, q.TimeOrigin(), a);
      assert !FromWriter(a) && FromOutside(q, a);
    }
  }
}
