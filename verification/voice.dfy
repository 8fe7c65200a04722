/** The two selection rules of the voice adapter: which synthesis voice is
    used, and which message a recognition error code is shown as. The
    engines themselves are outside the model; the voice list and the error
    code are inputs. */
module Voice {
  import opened Text
  import opened Tables

  /** A voice as the synthesis engine lists it. */
  datatype SpeechVoice = SpeechVoice(lang: string, name: string)

  predicate IsEnglish(v: SpeechVoice)
  {
    Contains(v.lang, "en")
  }

  /** First preference: the lower-cased name says "female". */
  predicate IsFemaleVoice(v: SpeechVoice)
  {
    IsEnglish(v) && Contains(Lower(v.name), "female")
  }

  /** Second preference: a named natural voice, or a name with both "Google" and "Female"
      (the `&&` binds tighter than the `||` chain around it). */
  predicate IsNaturalVoice(v: SpeechVoice)
  {
    IsEnglish(v)
    && (Contains(v.name, "Samantha") || Contains(v.name, "Karen")
        || Contains(v.name, "Susan") || Contains(v.name, "Zira")
        || (Contains(v.name, "Google") && Contains(v.name, "Female")))
  }

  /** Third preference: any Google or Microsoft voice. */
  predicate IsVendorVoice(v: SpeechVoice)
  {
    IsEnglish(v) && (Contains(v.name, "Google") || Contains(v.name, "Microsoft"))
  }

  /** `k` is the first voice of the list that `p` accepts. */
  ghost predicate IsFirstWhere(voices: seq<SpeechVoice>, p: SpeechVoice -> bool, k: int)
  {
    0 <= k < |voices| && p(voices[k]) && forall j :: 0 <= j < k ==> !p(voices[j])
  }

  /** `voices.find(p)`. */
  function Find(voices: seq<SpeechVoice>, p: SpeechVoice -> bool): (r: Option<SpeechVoice>)
    ensures r.None? <==> forall j :: 0 <= j < |voices| ==> !p(voices[j])
    ensures r.Some? ==> exists k :: IsFirstWhere(voices, p, k) && r.value == voices[k]
  {
    if voices == [] then None
    else if p(voices[0]) then
      assert IsFirstWhere(voices, p, 0);
      Some(voices[0])
    else
      var r := Find(voices[1..], p);
      assert forall j :: 1 <= j < |voices| ==> voices[1..][j - 1] == voices[j];
      assert r.Some? ==> exists k :: IsFirstWhere(voices, p, k) && r.value == voices[k] by {
        if r.Some? {
          var k :| IsFirstWhere(voices[1..], p, k) && r.value == voices[1..][k];
          assert IsFirstWhere(voices, p, k + 1);
        }
      }
      r
  }

  /** The voice `speak` assigns to the utterance; `None` leaves the engine's default. */
  function ChooseVoice(voices: seq<SpeechVoice>): (r: Option<SpeechVoice>)
    ensures (exists j :: 0 <= j < |voices| && IsFemaleVoice(voices[j]))
            ==> exists k :: IsFirstWhere(voices, IsFemaleVoice, k) && r == Some(voices[k])
    ensures (forall j :: 0 <= j < |voices| ==> !IsFemaleVoice(voices[j]))
            && (exists j :: 0 <= j < |voices| && IsNaturalVoice(voices[j]))
            ==> exists k :: IsFirstWhere(voices, IsNaturalVoice, k) && r == Some(voices[k])
    ensures (forall j :: 0 <= j < |voices| ==> !IsFemaleVoice(voices[j]) && !IsNaturalVoice(voices[j]))
            && (exists j :: 0 <= j < |voices| && IsVendorVoice(voices[j]))
            ==> exists k :: IsFirstWhere(voices, IsVendorVoice, k) && r == Some(voices[k])
    ensures r.None? <==> forall j :: 0 <= j < |voices| ==>
                           !IsFemaleVoice(voices[j]) && !IsNaturalVoice(voices[j]) && !IsVendorVoice(voices[j])
  {
    var female := Find(voices, IsFemaleVoice);
    var natural := Find(voices, IsNaturalVoice);
    var fallback := Find(voices, IsVendorVoice);
    if female.Some? then female
    else if natural.Some? then natural
    else fallback
  }

  /** Whatever is chosen is an English voice from the list. */
  lemma ChosenVoiceIsEnglish(voices: seq<SpeechVoice>)
    ensures ChooseVoice(voices).Some? ==> ChooseVoice(voices).value in voices && IsEnglish(ChooseVoice(voices).value)
  {
    var r := ChooseVoice(voices);
    if r.Some? {
      if exists j :: 0 <= j < |voices| && IsFemaleVoice(voices[j]) {
        var k :| IsFirstWhere(voices, IsFemaleVoice, k) && r == Some(voices[k]);
      } else if exists j :: 0 <= j < |voices| && IsNaturalVoice(voices[j]) {
        var k :| IsFirstWhere(voices, IsNaturalVoice, k) && r == Some(voices[k]);
      } else {
        var k :| IsFirstWhere(voices, IsVendorVoice, k) && r == Some(voices[k]);
      }
    }
  }

  /** The recognition error codes with a message of their own. */
  const ErrorMessages: seq<(string, string)> := [
    ("no-speech", "I didn't hear anything. Please try again."),
    ("audio-capture", "Microphone not accessible. Please check permissions."),
    ("not-allowed", "Microphone permission denied. Please allow microphone access."),
    ("network", "Network error. Please check your connection."),
    ("aborted", "Speech recognition was stopped.")
  ]

  const GenericErrorMessage := "Something went wrong. Please try again."

  /** `errorMessages[event.error] || 'Something went wrong...'`. */
  function ErrorMessage(code: string): (m: string)
    ensures |m| > 0
    ensures m == GenericErrorMessage <==> forall k :: 0 <= k < |ErrorMessages| ==> ErrorMessages[k].0 != code
    ensures forall k :: 0 <= k < |ErrorMessages| && ErrorMessages[k].0 == code ==> m == ErrorMessages[k].1
  {
    assert forall k :: 0 <= k < |ErrorMessages| ==> ErrorMessages[k].1 != GenericErrorMessage && |ErrorMessages[k].1| > 0;
    assert forall i, j :: 0 <= i < j < |ErrorMessages| ==> ErrorMessages[i].0 != ErrorMessages[j].0;
    match Lookup(ErrorMessages, code)
    case Some(message) => message
    case None => GenericErrorMessage
  }
}
