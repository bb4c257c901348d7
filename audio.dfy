/** `audioToParams`: `ac-none` to mute, then `vc-none` to keep the audio only. */
module AudioEncoder {

  import opened Text
  import opened Config

  /** `audioToParams` */
  function AudioTokens(a: Audio): seq<string>
  {
    (if a.mute then ["ac-none"] else []) + (if a.extractAudio then ["vc-none"] else [])
  }

  /** Each flag gives its token and nothing else; mute comes first. */
  lemma AudioTokensExact(a: Audio)
    ensures "ac-none" in AudioTokens(a) <==> a.mute
    ensures "vc-none" in AudioTokens(a) <==> a.extractAudio
    ensures |AudioTokens(a)| == (if a.mute then 1 else 0) + (if a.extractAudio then 1 else 0)
    ensures a.mute ==> AudioTokens(a)[0] == "ac-none"
    ensures Keys(AudioTokens(a)) == (if a.mute then ["ac"] else []) + (if a.extractAudio then ["vc"] else [])
  {
    assert "ac-none" != "vc-none" by {
      assert "ac-none"[0] != "vc-none"[0];
    }
    KeyOfDashed("ac", "none");
    KeyOfDashed("vc", "none");
    assert "ac" + "-" + "none" == "ac-none";
    assert "vc" + "-" + "none" == "vc-none";
  }

}
