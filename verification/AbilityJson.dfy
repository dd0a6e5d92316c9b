/** Codec abilities as JSON: the trees one component prints and another, separate one parses.
    Looking up a key ignores case, strings end at a zero character, and numbers are doubles. */
module AbilityJson {

  const MAX_MESSAGE_LEN := 40 * 1024 * 1024
  const MAX_ARR_SIZE := 10000
  const UINT8_MAX := 0xff
  const UINT32_MAX := 0xffff_ffff

  const NAME := "name"
  const INS := "ins"
  const OUTS := "outs"
  const MIME := "mime"
  const SAMPLE_RATE := "sample_rate"
  const AUDIO_SAMPLE_FORMAT := "sample_fmt"
  const AD_MPEG_VER := "ad_mpeg_ver"
  const AUDIO_AAC_PROFILE := "aac_profile"
  const AUDIO_AAC_STREAM_FORMAT := "aac_stm_fmt"
  const AUDIO_CHANNEL_LAYOUT := "channel_layout"
  const VIDEO_PIXEL_FMT := "pixel_fmt"
  const VIDEO_BIT_STREAM_FMT := "vd_bit_stream_fmt"

  datatype Json = Num(value: int) | Str(text: string) | Arr(items: seq<Json>) | Obj(fields: seq<Field>)

  datatype Field = Field(key: string, value: Json)

  datatype Option<T> = None | Some(value: T)

  // ----- the JSON library

  function Fold(c: char): char {
    if 'A' <= c <= 'Z' then (c as int + 32) as char else c
  }

  predicate SameKey(a: string, b: string) {
    |a| == |b| && forall i :: 0 <= i < |a| ==> Fold(a[i]) == Fold(b[i])
  }

  function Find(fields: seq<Field>, key: string): Option<Json> {
    if fields == [] then None
    else if SameKey(fields[0].key, key) then Some(fields[0].value)
    else Find(fields[1..], key)
  }

  function Get(j: Json, key: string): Option<Json> {
    if j.Obj? then Find(j.fields, key) else None
  }

  /** The part of a string before its first zero character. */
  function CStr(s: string): string {
    if s == "" || s[0] == '\0' then "" else [s[0]] + CStr(s[1..])
  }

  function Add(j: Json, key: string, value: Json): Json
    requires j.Obj?
  {
    Obj(j.fields + [Field(key, value)])
  }

  function AddString(j: Json, key: string, s: string): Json
    requires j.Obj?
  {
    Add(j, key, Str(CStr(s)))
  }

  /** The distance between neighbouring doubles at `v`. */
  function Ulp(v: nat): (u: nat)
    ensures u >= 1
  {
    if v < 0x20_0000_0000_0000 then 1 else 2 * Ulp(v / 2)
  }

  /** The nearest double, to even in the middle. */
  function ToDouble(v: nat): nat {
    var u := Ulp(v);
    var q, r := v / u, v % u;
    if 2 * r < u || (2 * r == u && q % 2 == 0) then q * u else (q + 1) * u
  }

  /** Exactly the integers that a double holds. */
  predicate Representable(v: nat) {
    v % Ulp(v) == 0
  }

  lemma ExactDouble(v: nat)
    ensures ToDouble(v) == v <==> Representable(v)
    ensures v < 0x20_0000_0000_0000 ==> Representable(v)
  {
    var u := Ulp(v);
    assert v == (v / u) * u + v % u;
    assert (v / u + 1) * u == (v / u) * u + u;
  }

  // ----- the checks of the parser

  predicate IsString(j: Json, key: string) {
    var v := Get(j, key);
    v.Some? && v.value.Str? && 0 < |v.value.text| <= MAX_MESSAGE_LEN
  }

  predicate IsArray(j: Json, key: string) {
    var v := Get(j, key);
    v.Some? && v.value.Arr? && |v.value.items| <= MAX_ARR_SIZE
  }

  predicate IsNumberUpTo(j: Json, key: string, max: int) {
    var v := Get(j, key);
    v.Some? && v.value.Num? && 0 <= v.value.value <= max
  }

  // ----- records

  /** A MIME type with a list of numbers: the inputs of all four kinds of codec, and the
      outputs of the decoders, which differ in the key of the list. */
  datatype Port = Port(mime: string, values: seq<nat>)

  datatype AudioEncoderOut = AudioEncoderOut(mime: string, mpegVersion: nat, profile: nat, streamFormat: nat) {
    predicate InRange() { mpegVersion <= UINT32_MAX && profile <= UINT8_MAX && streamFormat <= UINT8_MAX }
  }

  datatype VideoEncoderOut = VideoEncoderOut(mime: string)

  datatype Codec<I, O> = Codec(name: string, ins: seq<I>, outs: seq<O>)

  function Map<T, R>(s: seq<T>, f: T -> R): (r: seq<R>)
    ensures |r| == |s|
    ensures forall i :: 0 <= i < |s| ==> r[i] == f(s[i])
  {
    seq(|s|, i requires 0 <= i < |s| => f(s[i]))
  }

  function Number(v: nat): Json {
    Num(ToDouble(v))
  }

  /** What a loop over the elements visits: the items of an array, the values of an object. */
  function Children(j: Json): seq<Json> {
    match j
    case Arr(items) => items
    case Obj(fields) => seq(|fields|, i requires 0 <= i < |fields| => fields[i].value)
    case _ => []
  }

  /** The numbers among the visited elements. */
  function Numbers(items: seq<Json>): seq<nat> {
    if items == [] then []
    else
      var n := |items| - 1;
      Numbers(items[..n]) + (if items[n].Num? && items[n].value >= 0 then [items[n].value] else [])
  }

  // ----- printing

  function PrintPort(p: Port, key: string): Json {
    Add(AddString(Obj([]), MIME, p.mime), key, Arr(Map(p.values, Number)))
  }

  /** The version is printed as an 8-bit number. */
  function PrintAudioEncoderOut(o: AudioEncoderOut): Json {
    Add(Add(Add(AddString(Obj([]), MIME, o.mime), AD_MPEG_VER, Num(o.mpegVersion % 256)),
            AUDIO_AAC_PROFILE, Num(o.profile)),
        AUDIO_AAC_STREAM_FORMAT, Num(o.streamFormat))
  }

  function PrintVideoEncoderOut(o: VideoEncoderOut): Json {
    AddString(Obj([]), MIME, o.mime)
  }

  function PrintCodec<I, O>(c: Codec<I, O>, printIn: I -> Json, printOut: O -> Json): Json {
    Add(Add(AddString(Obj([]), NAME, c.name), INS, Arr(Map(c.ins, printIn))), OUTS, Arr(Map(c.outs, printOut)))
  }

  function PrintList<T>(key: string, objs: seq<T>, toJson: T -> Json): Json {
    Add(Obj([]), key, Arr(Map(objs, toJson)))
  }

  // ----- parsing

  /** The list is read under `key` if an array is found under `gate`. */
  function ParsePort(j: Json, gate: string, key: string): Port {
    if !IsString(j, MIME) then Port("", [])
    else
      var mime := Get(j, MIME).value.text;
      if !IsArray(j, gate) || Get(j, key).None? then Port(mime, [])
      else Port(mime, Numbers(Children(Get(j, key).value)))
  }

  /** `blank` is what the fields hold before parsing: the source leaves them uninitialised. */
  function ParseAudioEncoderOut(j: Json, blank: AudioEncoderOut): AudioEncoderOut {
    if !IsString(j, MIME) then blank
    else
      var o1 := blank.(mime := Get(j, MIME).value.text);
      if !IsNumberUpTo(j, AD_MPEG_VER, UINT32_MAX) then o1
      else
        var o2 := o1.(mpegVersion := Get(j, AD_MPEG_VER).value.value);
        if !IsNumberUpTo(j, AUDIO_AAC_PROFILE, UINT8_MAX) then o2
        else
          var o3 := o2.(profile := Get(j, AUDIO_AAC_PROFILE).value.value);
          if !IsNumberUpTo(j, AUDIO_AAC_STREAM_FORMAT, UINT8_MAX) then o3
          else o3.(streamFormat := Get(j, AUDIO_AAC_STREAM_FORMAT).value.value)
  }

  function ParseVideoEncoderOut(j: Json): VideoEncoderOut {
    if !IsString(j, MIME) then VideoEncoderOut("") else VideoEncoderOut(Get(j, MIME).value.text)
  }

  function ParseCodec<I, O>(j: Json, parseIn: Json -> I, parseOut: Json -> O): Codec<I, O> {
    if !IsString(j, NAME) then Codec("", [], [])
    else
      var name := Get(j, NAME).value.text;
      if !IsArray(j, INS) then Codec(name, [], [])
      else
        var ins := Map(Get(j, INS).value.items, parseIn);
        if !IsArray(j, OUTS) then Codec(name, ins, [])
        else Codec(name, ins, Map(Get(j, OUTS).value.items, parseOut))
  }

  function ParseList<T>(key: string, j: Json, parse: Json -> T): seq<T> {
    var v := Get(j, key);
    if v.None? then []
    else if v.value.Arr? then Map(v.value.items, parse)
    else [parse(v.value)]
  }

  // ----- strings and lookups

  /** A text that survives printing and the parser's check. */
  predicate IsText(s: string) {
    0 < |s| <= MAX_MESSAGE_LEN && '\0' !in s
  }

  lemma {:induction false} CStrIsPrefix(s: string)
    ensures |CStr(s)| <= |s| && '\0' !in CStr(s)
    ensures CStr(s) == s <==> '\0' !in s
  {
    if s != "" && s[0] != '\0' {
      CStrIsPrefix(s[1..]);
      assert s == [s[0]] + s[1..];
    }
  }

  /** A printed field is found when no earlier key is the same. */
  lemma {:induction false} FindAdded(fields: seq<Field>, i: nat, key: string)
    requires i < |fields| && SameKey(fields[i].key, key)
    requires forall j :: 0 <= j < i ==> !SameKey(fields[j].key, key)
    ensures Find(fields, key) == Some(fields[i].value)
  {
    if i > 0 {
      FindAdded(fields[1..], i - 1, key);
    }
  }

  lemma {:induction false} FindMissing(fields: seq<Field>, key: string)
    requires forall j :: 0 <= j < |fields| ==> !SameKey(fields[j].key, key)
    ensures Find(fields, key) == None
  {
    if fields != [] {
      FindMissing(fields[1..], key);
    }
  }

  lemma SameKeyReflexive(key: string)
    ensures SameKey(key, key)
  {
  }

  lemma {:induction false} NumbersOfPrinted(values: seq<nat>)
    ensures Numbers(Map(values, Number)) == seq(|values|, i requires 0 <= i < |values| => ToDouble(values[i]))
  {
    if values != [] {
      var n := |values| - 1;
      NumbersOfPrinted(values[..n]);
      assert Map(values, Number)[..n] == Map(values[..n], Number);
    }
  }

  lemma NumbersRoundTrip(values: seq<nat>)
    ensures Numbers(Map(values, Number)) == values <==> forall i :: 0 <= i < |values| ==> Representable(values[i])
  {
    NumbersOfPrinted(values);
    var read := Numbers(Map(values, Number));
    forall i | 0 <= i < |values| ensures read[i] == values[i] <==> Representable(values[i]) {
      ExactDouble(values[i]);
    }
  }

  // ----- print then parse, record by record

  lemma PortFields(p: Port, key: string)
    requires !SameKey(MIME, key)
    ensures Get(PrintPort(p, key), MIME) == Some(Str(CStr(p.mime)))
    ensures Get(PrintPort(p, key), key) == Some(Arr(Map(p.values, Number)))
  {
    var fields := PrintPort(p, key).fields;
    SameKeyReflexive(key);
    FindAdded(fields, 0, MIME);
    FindAdded(fields, 1, key);
  }

  predicate PortSurvives(p: Port) {
    || (IsText(p.mime) && |p.values| <= MAX_ARR_SIZE && forall i :: 0 <= i < |p.values| ==> Representable(p.values[i]))
    || p == Port("", [])
  }

  /** A port gated on its own key comes back exactly when it survives. */
  lemma PortRoundTrip(p: Port, key: string)
    requires !SameKey(MIME, key)
    ensures ParsePort(PrintPort(p, key), key, key) == p <==> PortSurvives(p)
  {
    PortFields(p, key);
    CStrIsPrefix(p.mime);
    NumbersRoundTrip(p.values);
  }

  /** A port gated on a key that is not printed loses its numbers and nothing else. */
  lemma MisgatedPort(p: Port, gate: string, key: string)
    requires !SameKey(MIME, key) && !SameKey(MIME, gate) && !SameKey(key, gate)
    ensures IsText(p.mime) || p.mime == "" ==> ParsePort(PrintPort(p, key), gate, key) == Port(p.mime, [])
    ensures ParsePort(PrintPort(p, key), gate, key) == p <==> (IsText(p.mime) || p.mime == "") && p.values == []
  {
    PortFields(p, key);
    CStrIsPrefix(p.mime);
    FindMissing(PrintPort(p, key).fields, gate);
  }

  lemma AudioEncoderOutFields(o: AudioEncoderOut)
    ensures var j := PrintAudioEncoderOut(o);
      && Get(j, MIME) == Some(Str(CStr(o.mime)))
      && Get(j, AD_MPEG_VER) == Some(Num(o.mpegVersion % 256))
      && Get(j, AUDIO_AAC_PROFILE) == Some(Num(o.profile))
      && Get(j, AUDIO_AAC_STREAM_FORMAT) == Some(Num(o.streamFormat))
  {
    var fields := PrintAudioEncoderOut(o).fields;
    assert AD_MPEG_VER[1] == 'd' && AUDIO_AAC_PROFILE[1] == 'a' && AUDIO_AAC_STREAM_FORMAT[1] == 'a';
    assert AUDIO_AAC_PROFILE[4] == 'p' && AUDIO_AAC_STREAM_FORMAT[4] == 's';
    FindAdded(fields, 0, MIME);
    FindAdded(fields, 1, AD_MPEG_VER);
    FindAdded(fields, 2, AUDIO_AAC_PROFILE);
    FindAdded(fields, 3, AUDIO_AAC_STREAM_FORMAT);
  }

  predicate AudioEncoderOutSurvives(o: AudioEncoderOut, blank: AudioEncoderOut) {
    (IsText(o.mime) && o.mpegVersion < 256) || o == blank
  }

  lemma AudioEncoderOutRoundTrip(o: AudioEncoderOut, blank: AudioEncoderOut)
    requires o.InRange() && blank.mime == ""
    ensures ParseAudioEncoderOut(PrintAudioEncoderOut(o), blank) == o <==> AudioEncoderOutSurvives(o, blank)
  {
    AudioEncoderOutFields(o);
    CStrIsPrefix(o.mime);
  }

  predicate VideoEncoderOutSurvives(o: VideoEncoderOut) {
    IsText(o.mime) || o.mime == ""
  }

  lemma VideoEncoderOutRoundTrip(o: VideoEncoderOut)
    ensures ParseVideoEncoderOut(PrintVideoEncoderOut(o)) == o <==> VideoEncoderOutSurvives(o)
  {
    FindAdded(PrintVideoEncoderOut(o).fields, 0, MIME);
    CStrIsPrefix(o.mime);
  }

  // ----- codecs and lists of codecs

  ghost predicate AllComeBack<T>(s: seq<T>, toJson: T -> Json, parse: Json -> T) {
    forall i :: 0 <= i < |s| ==> parse(toJson(s[i])) == s[i]
  }

  lemma ListComesBack<T>(s: seq<T>, toJson: T -> Json, parse: Json -> T)
    ensures Map(Map(s, toJson), parse) == s <==> AllComeBack(s, toJson, parse)
  {
    if Map(Map(s, toJson), parse) == s {
      assert forall i :: 0 <= i < |s| ==> s[i] == Map(Map(s, toJson), parse)[i];
    }
  }

  lemma CodecFields<I, O>(c: Codec<I, O>, printIn: I -> Json, printOut: O -> Json)
    ensures var j := PrintCodec(c, printIn, printOut);
      && Get(j, NAME) == Some(Str(CStr(c.name)))
      && Get(j, INS) == Some(Arr(Map(c.ins, printIn)))
      && Get(j, OUTS) == Some(Arr(Map(c.outs, printOut)))
  {
    var fields := PrintCodec(c, printIn, printOut).fields;
    assert NAME[0] == 'n' && OUTS[0] == 'o';
    FindAdded(fields, 0, NAME);
    FindAdded(fields, 1, INS);
    FindAdded(fields, 2, OUTS);
  }

  ghost predicate CodecSurvives<I, O>(c: Codec<I, O>, printIn: I -> Json, parseIn: Json -> I,
                                      printOut: O -> Json, parseOut: Json -> O) {
    || (IsText(c.name) && |c.ins| <= MAX_ARR_SIZE && |c.outs| <= MAX_ARR_SIZE
        && AllComeBack(c.ins, printIn, parseIn) && AllComeBack(c.outs, printOut, parseOut))
    || c == Codec("", [], [])
  }

  lemma CodecRoundTrip<I, O>(c: Codec<I, O>, printIn: I -> Json, parseIn: Json -> I,
                             printOut: O -> Json, parseOut: Json -> O)
    ensures ParseCodec(PrintCodec(c, printIn, printOut), parseIn, parseOut) == c
      <==> CodecSurvives(c, printIn, parseIn, printOut, parseOut)
  {
    CodecFields(c, printIn, printOut);
    CStrIsPrefix(c.name);
    ListComesBack(c.ins, printIn, parseIn);
    ListComesBack(c.outs, printOut, parseOut);
  }

  /** The list as a whole comes back, in order, exactly when each of its elements does. */
  lemma ListRoundTrip<T>(key: string, objs: seq<T>, toJson: T -> Json, parse: Json -> T)
    ensures ParseList(key, PrintList(key, objs, toJson), parse) == objs <==> AllComeBack(objs, toJson, parse)
  {
    SameKeyReflexive(key);
    FindAdded(PrintList(key, objs, toJson).fields, 0, key);
    ListComesBack(objs, toJson, parse);
  }

  // ----- the four kinds of codec

  const AUDIO_ENCODERS := "audioEncoders"
  const AUDIO_DECODERS := "audioDecoders"
  const VIDEO_ENCODERS := "videoEncoders"
  const VIDEO_DECODERS := "videoDecoders"

  type AudioEncoder = Codec<Port, AudioEncoderOut>
  type AudioDecoder = Codec<Port, Port>
  type VideoEncoder = Codec<Port, VideoEncoderOut>
  type VideoDecoder = Codec<Port, Port>

  function PrintAs(key: string): Port -> Json {
    p => PrintPort(p, key)
  }

  function ParseAs(gate: string, key: string): Json -> Port {
    j => ParsePort(j, gate, key)
  }

  function ParseOutWith(blank: AudioEncoderOut): Json -> AudioEncoderOut {
    j => ParseAudioEncoderOut(j, blank)
  }

  function PrintAudioEncoder(c: AudioEncoder): Json {
    PrintCodec(c, PrintAs(SAMPLE_RATE), PrintAudioEncoderOut)
  }

  function ParseAudioEncoder(blank: AudioEncoderOut): Json -> AudioEncoder {
    j => ParseCodec(j, ParseAs(SAMPLE_RATE, SAMPLE_RATE), ParseOutWith(blank))
  }

  function PrintAudioDecoder(c: AudioDecoder): Json {
    PrintCodec(c, PrintAs(AUDIO_CHANNEL_LAYOUT), PrintAs(AUDIO_SAMPLE_FORMAT))
  }

  function ParseAudioDecoder(j: Json): AudioDecoder {
    ParseCodec(j, ParseAs(AUDIO_CHANNEL_LAYOUT, AUDIO_CHANNEL_LAYOUT),
               ParseAs(AUDIO_SAMPLE_FORMAT, AUDIO_SAMPLE_FORMAT))
  }

  function PrintVideoEncoder(c: VideoEncoder): Json {
    PrintCodec(c, PrintAs(VIDEO_PIXEL_FMT), PrintVideoEncoderOut)
  }

  function ParseVideoEncoder(j: Json): VideoEncoder {
    ParseCodec(j, ParseAs(VIDEO_PIXEL_FMT, VIDEO_PIXEL_FMT), ParseVideoEncoderOut)
  }

  function PrintVideoDecoder(c: VideoDecoder): Json {
    PrintCodec(c, PrintAs(VIDEO_BIT_STREAM_FMT), PrintAs(VIDEO_PIXEL_FMT))
  }

  /** The outputs' pixel formats are read only if a bit stream format array is there. */
  function ParseVideoDecoder(j: Json): VideoDecoder {
    ParseCodec(j, ParseAs(VIDEO_BIT_STREAM_FMT, VIDEO_BIT_STREAM_FMT), ParseAs(VIDEO_BIT_STREAM_FMT, VIDEO_PIXEL_FMT))
  }

  /** A codec comes back exactly when its name is a text, its lists are short enough and its
      ports survive, or when it is the empty codec. */
  predicate Survives<I(!new), O(!new)>(c: Codec<I, O>, inOk: I -> bool, outOk: O -> bool) {
    || (IsText(c.name) && |c.ins| <= MAX_ARR_SIZE && |c.outs| <= MAX_ARR_SIZE
        && (forall i :: 0 <= i < |c.ins| ==> inOk(c.ins[i])) && (forall i :: 0 <= i < |c.outs| ==> outOk(c.outs[i])))
    || (c.name == "" && |c.ins| == 0 && |c.outs| == 0)
  }

  lemma PortsComeBack(s: seq<Port>, key: string)
    requires !SameKey(MIME, key)
    ensures AllComeBack(s, PrintAs(key), ParseAs(key, key)) <==> forall i :: 0 <= i < |s| ==> PortSurvives(s[i])
  {
    forall i | 0 <= i < |s| ensures ParseAs(key, key)(PrintAs(key)(s[i])) == s[i] <==> PortSurvives(s[i]) {
      PortRoundTrip(s[i], key);
    }
  }

  predicate InRange(c: AudioEncoder) {
    forall i :: 0 <= i < |c.outs| ==> c.outs[i].InRange()
  }

  function OutSurvives(blank: AudioEncoderOut): AudioEncoderOut -> bool {
    o => AudioEncoderOutSurvives(o, blank)
  }

  /** The parser recovers a printed list of audio encoders, in order, exactly when every
      element survives: in particular for texts without zero characters, lists within the
      limits, versions below 256 and sample rates of 32 bits. */
  lemma AudioEncodersRoundTrip(objs: seq<AudioEncoder>, blank: AudioEncoderOut)
    requires blank.mime == "" && forall i :: 0 <= i < |objs| ==> InRange(objs[i])
    ensures ParseList(AUDIO_ENCODERS, PrintList(AUDIO_ENCODERS, objs, PrintAudioEncoder), ParseAudioEncoder(blank))
        == objs
      <==> forall i :: 0 <= i < |objs| ==> Survives(objs[i], PortSurvives, OutSurvives(blank))
  {
    ListRoundTrip(AUDIO_ENCODERS, objs, PrintAudioEncoder, ParseAudioEncoder(blank));
    forall i | 0 <= i < |objs|
      ensures ParseAudioEncoder(blank)(PrintAudioEncoder(objs[i])) == objs[i]
        <==> Survives(objs[i], PortSurvives, OutSurvives(blank))
    {
      AudioEncoderRoundTrip(objs[i], blank);
    }
  }

  lemma AudioEncoderRoundTrip(c: AudioEncoder, blank: AudioEncoderOut)
    requires blank.mime == "" && InRange(c)
    ensures ParseAudioEncoder(blank)(PrintAudioEncoder(c)) == c <==> Survives(c, PortSurvives, OutSurvives(blank))
  {
    CodecRoundTrip(c, PrintAs(SAMPLE_RATE), ParseAs(SAMPLE_RATE, SAMPLE_RATE),
                   PrintAudioEncoderOut, ParseOutWith(blank));
    PortsComeBack(c.ins, SAMPLE_RATE);
    forall i | 0 <= i < |c.outs|
      ensures ParseOutWith(blank)(PrintAudioEncoderOut(c.outs[i])) == c.outs[i] <==> OutSurvives(blank)(c.outs[i])
    {
      AudioEncoderOutRoundTrip(c.outs[i], blank);
    }
  }

  /** The same for audio decoders, whose layouts are 64-bit numbers: those must be doubles. */
  lemma AudioDecodersRoundTrip(objs: seq<AudioDecoder>)
    ensures ParseList(AUDIO_DECODERS, PrintList(AUDIO_DECODERS, objs, PrintAudioDecoder), ParseAudioDecoder) == objs
      <==> forall i :: 0 <= i < |objs| ==> Survives(objs[i], PortSurvives, PortSurvives)
  {
    ListRoundTrip(AUDIO_DECODERS, objs, PrintAudioDecoder, ParseAudioDecoder);
    forall i | 0 <= i < |objs|
      ensures ParseAudioDecoder(PrintAudioDecoder(objs[i])) == objs[i]
        <==> Survives(objs[i], PortSurvives, PortSurvives)
    {
      var c := objs[i];
      CodecRoundTrip(c, PrintAs(AUDIO_CHANNEL_LAYOUT), ParseAs(AUDIO_CHANNEL_LAYOUT, AUDIO_CHANNEL_LAYOUT),
                     PrintAs(AUDIO_SAMPLE_FORMAT), ParseAs(AUDIO_SAMPLE_FORMAT, AUDIO_SAMPLE_FORMAT));
      PortsComeBack(c.ins, AUDIO_CHANNEL_LAYOUT);
      PortsComeBack(c.outs, AUDIO_SAMPLE_FORMAT);
    }
  }

  /** The same for video encoders. */
  lemma VideoEncodersRoundTrip(objs: seq<VideoEncoder>)
    ensures ParseList(VIDEO_ENCODERS, PrintList(VIDEO_ENCODERS, objs, PrintVideoEncoder), ParseVideoEncoder) == objs
      <==> forall i :: 0 <= i < |objs| ==> Survives(objs[i], PortSurvives, VideoEncoderOutSurvives)
  {
    ListRoundTrip(VIDEO_ENCODERS, objs, PrintVideoEncoder, ParseVideoEncoder);
    forall i | 0 <= i < |objs|
      ensures ParseVideoEncoder(PrintVideoEncoder(objs[i])) == objs[i]
        <==> Survives(objs[i], PortSurvives, VideoEncoderOutSurvives)
    {
      var c := objs[i];
      CodecRoundTrip(c, PrintAs(VIDEO_PIXEL_FMT), ParseAs(VIDEO_PIXEL_FMT, VIDEO_PIXEL_FMT),
                     PrintVideoEncoderOut, ParseVideoEncoderOut);
      PortsComeBack(c.ins, VIDEO_PIXEL_FMT);
      forall k | 0 <= k < |c.outs|
        ensures ParseVideoEncoderOut(PrintVideoEncoderOut(c.outs[k])) == c.outs[k]
          <==> VideoEncoderOutSurvives(c.outs[k])
      {
        VideoEncoderOutRoundTrip(c.outs[k]);
      }
    }
  }

  predicate OutputSurvivesGate(p: Port) {
    (IsText(p.mime) || p.mime == "") && p.values == []
  }

  /** Video decoders come back exactly when their outputs have no pixel formats at all. */
  lemma VideoDecodersRoundTrip(objs: seq<VideoDecoder>)
    ensures ParseList(VIDEO_DECODERS, PrintList(VIDEO_DECODERS, objs, PrintVideoDecoder), ParseVideoDecoder) == objs
      <==> forall i :: 0 <= i < |objs| ==> Survives(objs[i], PortSurvives, OutputSurvivesGate)
  {
    ListRoundTrip(VIDEO_DECODERS, objs, PrintVideoDecoder, ParseVideoDecoder);
    forall i | 0 <= i < |objs|
      ensures ParseVideoDecoder(PrintVideoDecoder(objs[i])) == objs[i]
        <==> Survives(objs[i], PortSurvives, OutputSurvivesGate)
    {
      var c := objs[i];
      CodecRoundTrip(c, PrintAs(VIDEO_BIT_STREAM_FMT), ParseAs(VIDEO_BIT_STREAM_FMT, VIDEO_BIT_STREAM_FMT),
                     PrintAs(VIDEO_PIXEL_FMT), ParseAs(VIDEO_BIT_STREAM_FMT, VIDEO_PIXEL_FMT));
      PortsComeBack(c.ins, VIDEO_BIT_STREAM_FMT);
      forall k | 0 <= k < |c.outs|
        ensures ParseAs(VIDEO_BIT_STREAM_FMT, VIDEO_PIXEL_FMT)(PrintAs(VIDEO_PIXEL_FMT)(c.outs[k])) == c.outs[k]
          <==> OutputSurvivesGate(c.outs[k])
      {
        MisgatedPort(c.outs[k], VIDEO_BIT_STREAM_FMT, VIDEO_PIXEL_FMT);
      }
    }
  }

  function WithoutPixelFormats(c: VideoDecoder): VideoDecoder {
    c.(outs := seq(|c.outs|, i requires 0 <= i < |c.outs| => Port(c.outs[i].mime, [])))
  }

  /** Otherwise they agree except for those: everything else of a decoder with usable texts
      and surviving inputs comes back. */
  lemma VideoDecoderLosesPixelFormats(c: VideoDecoder)
    requires IsText(c.name) && |c.ins| <= MAX_ARR_SIZE && |c.outs| <= MAX_ARR_SIZE
    requires forall i :: 0 <= i < |c.ins| ==> PortSurvives(c.ins[i])
    requires forall i :: 0 <= i < |c.outs| ==> IsText(c.outs[i].mime) || c.outs[i].mime == ""
    ensures ParseVideoDecoder(PrintVideoDecoder(c)) == WithoutPixelFormats(c)
  {
    CodecFields(c, PrintAs(VIDEO_BIT_STREAM_FMT), PrintAs(VIDEO_PIXEL_FMT));
    CStrIsPrefix(c.name);
    PortsComeBack(c.ins, VIDEO_BIT_STREAM_FMT);
    ListComesBack(c.ins, PrintAs(VIDEO_BIT_STREAM_FMT), ParseAs(VIDEO_BIT_STREAM_FMT, VIDEO_BIT_STREAM_FMT));
    forall k | 0 <= k < |c.outs|
      ensures ParseAs(VIDEO_BIT_STREAM_FMT, VIDEO_PIXEL_FMT)(PrintAs(VIDEO_PIXEL_FMT)(c.outs[k]))
          == Port(c.outs[k].mime, [])
    {
      MisgatedPort(c.outs[k], VIDEO_BIT_STREAM_FMT, VIDEO_PIXEL_FMT);
    }
  }
}

/** The loops of the printer and the parser, as the source runs them. */
module AbilityLoops {
  import opened AbilityJson

  method ToJsonPort(p: Port, key: string) returns (j: Json)
    ensures j == PrintPort(p, key)
  {
    j := AddString(Obj([]), MIME, p.mime);
    var items := [];
    for i := 0 to |p.values|
      invariant items == Map(p.values[..i], Number)
    {
      items := items + [Number(p.values[i])];
    }
    assert p.values[..|p.values|] == p.values;
    j := Add(j, key, Arr(items));
  }

  method FromJsonPort(j: Json, gate: string, key: string) returns (p: Port)
    ensures p == ParsePort(j, gate, key)
  {
    p := Port("", []);
    if !IsString(j, MIME) {
      return;
    }
    p := p.(mime := Get(j, MIME).value.text);
    if !IsArray(j, gate) {
      return;
    }
    var list := Get(j, key);
    if list == None {
      return;
    }
    var items := Children(list.value);
    for i := 0 to |items|
      invariant p == Port(Get(j, MIME).value.text, Numbers(items[..i]))
    {
      assert items[..i + 1][..i] == items[..i];
      if items[i].Num? && items[i].value >= 0 {
        p := p.(values := p.values + [items[i].value]);
      }
    }
    assert items[..|items|] == items;
  }

  method ToArray<T>(objs: seq<T>, toJson: T -> Json) returns (j: Json)
    ensures j == Arr(Map(objs, toJson))
  {
    var items := [];
    for i := 0 to |objs|
      invariant items == Map(objs[..i], toJson)
    {
      items := items + [toJson(objs[i])];
    }
    assert objs[..|objs|] == objs;
    j := Arr(items);
  }

  method FromItems<T>(items: seq<Json>, parse: Json -> T) returns (objs: seq<T>)
    ensures objs == Map(items, parse)
  {
    objs := [];
    for i := 0 to |items|
      invariant objs == Map(items[..i], parse)
    {
      objs := objs + [parse(items[i])];
    }
    assert items[..|items|] == items;
  }

  method ToJsonCodec<I, O>(c: Codec<I, O>, printIn: I -> Json, printOut: O -> Json) returns (j: Json)
    ensures j == PrintCodec(c, printIn, printOut)
  {
    j := AddString(Obj([]), NAME, c.name);
    var insJson := ToArray(c.ins, printIn);
    j := Add(j, INS, insJson);
    var outsJson := ToArray(c.outs, printOut);
    j := Add(j, OUTS, outsJson);
  }

  method FromJsonCodec<I, O>(j: Json, parseIn: Json -> I, parseOut: Json -> O) returns (c: Codec<I, O>)
    ensures c == ParseCodec(j, parseIn, parseOut)
  {
    c := Codec("", [], []);
    if !IsString(j, NAME) {
      return;
    }
    c := c.(name := Get(j, NAME).value.text);
    if !IsArray(j, INS) {
      return;
    }
    var ins := FromItems(Get(j, INS).value.items, parseIn);
    c := c.(ins := ins);
    if !IsArray(j, OUTS) {
      return;
    }
    var outs := FromItems(Get(j, OUTS).value.items, parseOut);
    c := c.(outs := outs);
  }

  method FromJsonList<T>(key: string, j: Json, parse: Json -> T) returns (objs: seq<T>)
    ensures objs == ParseList(key, j, parse)
  {
    var json := Get(j, key);
    if json == None {
      return [];
    }
    if json.value.Arr? {
      objs := FromItems(json.value.items, parse);
    } else {
      objs := [parse(json.value)];
    }
  }
}
