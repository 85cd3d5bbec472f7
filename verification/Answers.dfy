/** What a service's answers tell a client about its generation. */
module Answers {
  import opened Prelude
  import opened Wire
  import opened Frames
  import opened FrameLaws
  import opened Names
  import opened Service

  predicate HasPrefix(text: Bytes, prefix: Bytes) { |prefix| <= |text| && text[..|prefix|] == prefix }

  predicate HasSuffix(text: Bytes, suffix: Bytes) { |suffix| <= |text| && text[|text| - |suffix|..] == suffix }

  function Predating(word: string): Bytes { Ascii(word) + Unknown(TYPE_TAGGED) + [SPACE] }

  /** receiverPredatesTagged */
  predicate PredatesTagged(ack: Frame) {
    ack.ftype == TYPE_TEXT && (HasPrefix(ack.payload, Predating("ACK ")) || HasPrefix(ack.payload, Predating("ERR ")))
  }

  /** A text whose second word is not UNKNOWN(10) matches neither prefix. */
  lemma OtherWord(first: string, word: Bytes, more: Bytes, prefix: string)
    requires |first| == |prefix| == 4 && SPACE !in word && word != Unknown(TYPE_TAGGED)
    ensures !HasPrefix(Ascii(first) + word + [SPACE] + more, Predating(prefix))
  {
    var text, p := Ascii(first) + word + [SPACE] + more, Predating(prefix);
    if HasPrefix(text, p) {
      assert text == p + text[|p|..];
      assert text == Ascii(first) + (word + [SPACE] + more);
      assert p + text[|p|..] == Ascii(prefix) + (Unknown(TYPE_TAGGED) + [SPACE] + text[|p|..]);
      SplitAt(Ascii(first), word + [SPACE] + more, Ascii(prefix), Unknown(TYPE_TAGGED) + [SPACE] + text[|p|..]);
      UnknownShape(TYPE_TAGGED);
      UntilStop(word, more, Unknown(TYPE_TAGGED), text[|p|..], SPACE);
    }
  }

  /** An answer that does not name a type is told apart by its fifth letter. */
  lemma OtherLetter(text: Bytes, prefix: string)
    requires |prefix| == 4 && |text| > 4 && text[4] != 'U' as int
    ensures !HasPrefix(text, Predating(prefix))
  {
  }

  lemma AckNames(gen: Generation, f: Frame, more: Bytes)
    requires NameIn(gen, f.ftype) != Unknown(TYPE_TAGGED)
    ensures !PredatesTagged(Text(AckText(gen, f) + more))
    ensures !PredatesTagged(Text(AckText(gen, f)))
  {
    NameShape(f.ftype);
    var name := NameIn(gen, f.ftype);
    var tail := Dec(|f.payload|) + Ascii(" bytes");
    assert AckText(gen, f) == Ascii("ACK ") + name + [SPACE] + tail;
    assert AckText(gen, f) + more == Ascii("ACK ") + name + [SPACE] + (tail + more);
    OtherWord("ACK ", name, tail, "ACK ");
    OtherWord("ACK ", name, tail, "ERR ");
    OtherWord("ACK ", name, tail + more, "ACK ");
    OtherWord("ACK ", name, tail + more, "ERR ");
  }

  /** An ACK says which type and how many bytes were taken. */
  lemma AckTells(f: Frame, g: Frame)
    ensures AckText(Current, f) == AckText(Current, g) <==> f.ftype == g.ftype && |f.payload| == |g.payload|
  {
    if AckText(Current, f) == AckText(Current, g) {
      NameShape(f.ftype);
      NameShape(g.ftype);
      var x, y := Dec(|f.payload|) + Ascii(" bytes"), Dec(|g.payload|) + Ascii(" bytes");
      AckParts(f);
      AckParts(g);
      SplitAt(Ascii("ACK "), TypeName(f.ftype) + [SPACE] + x, Ascii("ACK "), TypeName(g.ftype) + [SPACE] + y);
      UntilStop(TypeName(f.ftype), x, TypeName(g.ftype), y, SPACE);
      TypeNameInjective(f.ftype, g.ftype);
      UntilStop(Dec(|f.payload|), Ascii("bytes"), Dec(|g.payload|), Ascii("bytes"), SPACE);
      UndecDec(|f.payload|);
      UndecDec(|g.payload|);
    }
  }

  lemma AckParts(f: Frame)
    ensures AckText(Current, f) == Ascii("ACK ") + (TypeName(f.ftype) + [SPACE] + (Dec(|f.payload|) + Ascii(" bytes")))
    ensures Dec(|f.payload|) + Ascii(" bytes") == Dec(|f.payload|) + [SPACE] + Ascii("bytes")
  {
    assert Ascii(" bytes") == [SPACE] + Ascii("bytes");
  }

  lemma AckReads(payload: Bytes)
    requires |payload| == 5
    ensures AckText(Current, Text(payload)) == Ascii("ACK TEXT 5 bytes")
  {
    assert Dec(5) == [53];
  }

  /** What the current service answers to a frame it does not suppress, other than
      a trace (5) or a stream frame (7): types 1 to 4 get their ACK, or the error if
      saving failed, which is not tried for a FILE without a name; any other type is
      refused as unsupported. */
  lemma AnswersExactly(p: Peer, e: Env, f: Frame)
    requires p.gen == Current && !Suppressed(p, e, f) && f.ftype != 5 && f.ftype != 7
    ensures Handle(p, e, f).answer == Some(Text(
              if f.ftype == 0 || f.ftype > 4 then ErrText(Current, f, Ascii("unsupported frame type ") + Dec(f.ftype))
              else if e.saveErr.Some? && !(f.ftype == 4 && f.filename == []) then ErrText(Current, f, e.saveErr.value)
              else AckText(Current, f)))
  {
  }

  lemma ErrNames(gen: Generation, f: Frame, reason: Bytes)
    requires NameIn(gen, f.ftype) != Unknown(TYPE_TAGGED)
    ensures !PredatesTagged(Text(ErrText(gen, f, reason)))
  {
    NameShape(f.ftype);
    var name, tail := NameIn(gen, f.ftype), Ascii("save failed: ") + reason;
    assert ErrText(gen, f, reason) == Ascii("ERR ") + name + [SPACE] + tail;
    OtherWord("ERR ", name, tail, "ACK ");
    OtherWord("ERR ", name, tail, "ERR ");
  }

  lemma NamelessAnswers(reason: Bytes)
    ensures !PredatesTagged(Text(Ascii("ERR received dir: ") + reason))
    ensures !PredatesTagged(Text(Ascii("ERR mkdir: ") + reason))
    ensures !PredatesTagged(Text(Ascii("ERR trace parse: ") + reason))
  {
    OtherLetter(Ascii("ERR received dir: ") + reason, "ACK ");
    OtherLetter(Ascii("ERR received dir: ") + reason, "ERR ");
    OtherLetter(Ascii("ERR mkdir: ") + reason, "ACK ");
    OtherLetter(Ascii("ERR mkdir: ") + reason, "ERR ");
    OtherLetter(Ascii("ERR trace parse: ") + reason, "ACK ");
    OtherLetter(Ascii("ERR trace parse: ") + reason, "ERR ");
  }

  lemma DispatchText(p: Peer, e: Env, f: Frame)
    requires f.ftype != TYPE_FILE_STREAM && f.ftype != TYPE_TRACE
    ensures var a := Dispatch(p, e, f).answer;
            a == Some(Text(AckText(p.gen, f))) || a == Some(Text(ErrText(p.gen, f, Unsupported(p.gen, e, f))))
            || (e.saveErr.Some? && a == Some(Text(ErrText(p.gen, f, e.saveErr.value))))
  {
  }

  lemma DispatchNeverPredates(p: Peer, e: Env, f: Frame)
    requires NameIn(p.gen, f.ftype) != Unknown(TYPE_TAGGED)
    ensures var a := Dispatch(p, e, f).answer; a.Some? ==> !PredatesTagged(a.value)
  {
    if f.ftype == TYPE_FILE_STREAM {
      if e.stream.NoDir? || e.stream.NoMkdir? { NamelessAnswers(e.stream.reason); }
    } else if f.ftype == TYPE_TRACE {
      NamelessAnswers(e.timing);
    } else {
      DispatchText(p, e, f);
      AckNames(p.gen, f, []);
      ErrNames(p.gen, f, Unsupported(p.gen, e, f));
      if e.saveErr.Some? { ErrNames(p.gen, f, e.saveErr.value); }
    }
  }

  /** No answer to a frame whose type the service has a name for, or numbers
      other than 10, looks like the answer of a service that predates tags. */
  lemma NamedNeverPredates(p: Peer, e: Env, f: Frame)
    requires CacheOk(p) && NameIn(p.gen, f.ftype) != Unknown(TYPE_TAGGED)
    ensures var a := Handle(p, e, f).answer; a.Some? ==> !PredatesTagged(a.value)
  {
    if Suppressed(p, e, f) {
      ArrivedInv(p, e, f);
      KnownIsAcked(Arrived(p, e, f), f);
      AckNames(p.gen, f, Ascii(DUPLICATE));
    } else {
      DispatchNeverPredates(Arrived(p, e, f), e, f);
    }
  }

  /** The current service, whatever frame of whatever type it unwrapped, never
      answers like one that predates tags. */
  lemma CurrentNeverPredates(p: Peer, e: Env, f: Frame)
    requires CacheOk(p) && p.gen == Current
    ensures var a := Handle(p, e, f).answer; a.Some? ==> !PredatesTagged(a.value)
  {
    NameShape(f.ftype);
    NamedNeverPredates(p, e, f);
  }

  /** An older one always does when it gets a tagged frame, which it never stores. */
  lemma OlderAlwaysPredates(p: Peer, e: Env, f: Frame)
    requires p.gen != Current && f.ftype == TYPE_TAGGED
    ensures var h := Handle(p, e, f);
      && h.answer.Some? && PredatesTagged(h.answer.value)
      && h.peer == p.(seen := p.seen + [f])
  {
  }
}
