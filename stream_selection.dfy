/**
 * `findBestStream`: which of the audio formats offered for an online
 * stream is played, given what the browser supports.
 */
module StreamSelection {
  import opened Common

  /** One offered format; `abr` (average bit rate) may be missing. */
  datatype Format = Format(formatId: string, protocol: string, ext: string, acodec: string, abr: Option<real>)

  /** The browser facts the choice depends on (`window.runtime`). */
  datatype Runtime = Runtime(mp4Support: bool, oggSupport: bool, mobile: bool)

  predicate IsHttps(f: Format) { f.protocol == "https" }

  /** The m4a audio format. */
  predicate IsM4a(f: Format) { f.formatId == "140" }

  predicate IsWebm(f: Format) { f.ext == "webm" || f.acodec == "opus" || f.acodec == "vorbis" }

  function MinAbr(rt: Runtime): real { if rt.mobile then 40.0 else 60.0 }

  /** `f.abr >= minAbr`; a missing bit rate compares false. */
  predicate GoodAbr(f: Format, rt: Runtime) { f.abr.Some? && f.abr.value >= MinAbr(rt) }

  predicate IsHttpsM4a(f: Format) { IsHttps(f) && IsM4a(f) }

  /** The m4a format is chosen outright. */
  predicate M4aWins(formats: seq<Format>, rt: Runtime)
  {
    rt.mp4Support && exists f | f in formats :: IsHttps(f) && IsM4a(f)
  }

  /** The formats the bit-rate rule picks from: the https ones, narrowed to WebM audio when the browser plays Ogg and there is any. */
  function Candidates(formats: seq<Format>, rt: Runtime): (c: seq<Format>)
    ensures forall f | f in c :: f in formats && IsHttps(f)
    ensures rt.oggSupport && (exists f | f in formats :: IsHttps(f) && IsWebm(f)) ==>
      forall f | f in formats :: f in c <==> IsHttps(f) && IsWebm(f)
    ensures !(rt.oggSupport && (exists f | f in formats :: IsHttps(f) && IsWebm(f))) ==>
      forall f | f in formats :: f in c <==> IsHttps(f)
  {
    var https := Filter(formats, IsHttps);
    var webm := Filter(https, IsWebm);
    if rt.oggSupport && |webm| > 0 then
      assert webm[0] in webm;
      webm
    else
      https
  }

  /** The chosen format, or none when no https format is offered. */
  function FindBestStream(formats: seq<Format>, rt: Runtime): (r: Option<Format>)
    ensures r.Some? ==> r.value in formats && IsHttps(r.value)
    ensures r.None? <==> forall f | f in formats :: !IsHttps(f)
    ensures M4aWins(formats, rt) ==> r.Some? && IsM4a(r.value)
    ensures M4aWins(formats, rt) ==> FirstWhere(formats, IsHttpsM4a) >= 0 && r == Some(formats[FirstWhere(formats, IsHttpsM4a)])
    ensures !M4aWins(formats, rt) ==> r.Some? ==> r.value in Candidates(formats, rt)
    ensures !M4aWins(formats, rt) && (exists f | f in Candidates(formats, rt) :: GoodAbr(f, rt)) ==>
      r.Some? && GoodAbr(r.value, rt)
    ensures !M4aWins(formats, rt) && r.Some? && !GoodAbr(r.value, rt) ==>
      r.value == Candidates(formats, rt)[0]
  {
    var https := Filter(formats, IsHttps);
    var m := FirstWhere(https, IsM4a);
    FirstWhereFilter(formats, IsHttps, IsM4a, IsHttpsM4a);
    if rt.mp4Support && m >= 0 then Some(https[m])
    else
      var c := Candidates(formats, rt);
      var k := FirstWhere(c, f => GoodAbr(f, rt));
      if k >= 0 then Some(c[k])
      else if |c| > 0 then Some(c[0])
      else None
  }

  /** Among the candidates, the choice is the first one with a good bit rate. */
  lemma FirstGoodCandidate(formats: seq<Format>, rt: Runtime, i: nat)
    requires !M4aWins(formats, rt)
    requires i < |Candidates(formats, rt)| && GoodAbr(Candidates(formats, rt)[i], rt)
    requires forall j | 0 <= j < i :: !GoodAbr(Candidates(formats, rt)[j], rt)
    ensures FindBestStream(formats, rt) == Some(Candidates(formats, rt)[i])
  {
    var https := Filter(formats, IsHttps);
    var m := FirstWhere(https, IsM4a);
    if m >= 0 {
      assert https[m] in https;
    }
    var c := Candidates(formats, rt);
    assert (f => GoodAbr(f, rt))(c[i]);
    assert FirstWhere(c, f => GoodAbr(f, rt)) == i;
  }
}
