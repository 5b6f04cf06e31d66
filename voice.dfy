/**
 * Voice generation: the cache file name derived from the text's digest, the cache lookup, the
 * fallback URL, and the branch structure of `generate_voice` over the client flag, the cache
 * and the outcome of synthesis. The file system is the set of paths that exist; the md5 hex
 * digest is the parameter `md5hex`; what the speech service does is the parameter `synthesis`.
 */
module Voice {
  import opened Wrappers
  import Strings

  const AudioDir: string := "static/audio"
  const UrlPrefix: string := "/audio/"
  /** `_get_fallback_audio_url`. */
  const FallbackUrl: string := UrlPrefix + "fallback_roast.mp3"

  /** `s[:n]`: the first `n` characters, or all of `s` when it is shorter. */
  function Prefix(s: string, n: nat): (p: string)
    ensures |p| == if |s| < n then |s| else n
    ensures p <= s
  {
    if |s| <= n then s else s[..n]
  }

  /** Lower-case hexadecimal digits, as `hexdigest` produces them. */
  predicate IsHex(s: string)
  {
    forall i :: 0 <= i < |s| ==> '0' <= s[i] <= '9' || 'a' <= s[i] <= 'f'
  }

  /** `f"roast_{text_hash}.mp3"` with `text_hash` the first 8 characters of the digest. */
  function CacheFilename(digest: string): (name: string)
    ensures |name| == 10 + |Prefix(digest, 8)| <= 18
    ensures IsHex(digest) ==> '/' !in name
  {
    var hash := Prefix(digest, 8);
    var name := "roast_" + hash + ".mp3";
    assert IsHex(digest) ==> '/' !in name by {
      if IsHex(digest) {
        assert forall i :: 0 <= i < |hash| ==> hash[i] == digest[i];
        assert forall i :: 0 <= i < |name| ==>
          name[i] == (if i < 6 then "roast_"[i] else if i < 6 + |hash| then hash[i - 6] else ".mp3"[i - 6 - |hash|]);
      }
    }
    name
  }

  /** `os.path.join("static/audio", filename)`. */
  function CachePath(digest: string): string
  {
    AudioDir + "/" + CacheFilename(digest)
  }

  /** `_get_cached_audio`: the URL of the cached file when its path exists. */
  function CachedAudio(files: set<string>, digest: string): (url: Option<string>)
    ensures url.Some? <==> CachePath(digest) in files
    ensures url.Some? ==> UrlPrefix <= url.value
  {
    if CachePath(digest) in files then Some(UrlPrefix + CacheFilename(digest)) else None
  }

  /** What the speech service does with the text. */
  datatype Synthesis =
    | ConvertFailed  // `convert` raises: no file is touched
    | StreamFailed   // the file is opened for writing, then the audio stream raises
    | Streamed       // the stream is written out in full

  /** The URL returned and the files that exist afterwards. */
  datatype VoiceResult = VoiceResult(url: string, files: set<string>)

  /** `generate_voice` on a file system holding `files`. */
  function Generate(files: set<string>, text: string, useCache: bool, hasClient: bool,
                    md5hex: string -> string, synthesis: Synthesis): (r: VoiceResult)
    ensures r.files == files || r.files == files + {CachePath(md5hex(text))}
  {
    if !hasClient then VoiceResult(FallbackUrl, files)
    else
      var digest := md5hex(text);
      var cached := if useCache then CachedAudio(files, digest) else None;
      if cached.Some? then VoiceResult(cached.value, files)
      else
        match synthesis
        case ConvertFailed => VoiceResult(FallbackUrl, files)
        case StreamFailed => VoiceResult(FallbackUrl, files + {CachePath(digest)})
        case Streamed => VoiceResult(UrlPrefix + Strings.Basename(CachePath(digest)), files + {CachePath(digest)})
  }

  /** Every URL returned lies under "/audio/". */
  lemma UrlsUnderAudio(files: set<string>, text: string, useCache: bool, hasClient: bool,
                       md5hex: string -> string, synthesis: Synthesis)
    ensures UrlPrefix <= Generate(files, text, useCache, hasClient, md5hex, synthesis).url
  {
  }

  /** Without a client the fallback is returned, whatever the cache holds, and no file appears. */
  lemma NoClientFallback(files: set<string>, text: string, useCache: bool,
                         md5hex: string -> string, synthesis: Synthesis)
    ensures Generate(files, text, useCache, false, md5hex, synthesis) == VoiceResult(FallbackUrl, files)
  {
  }

  /** Without `use_cache` the cache is not consulted: the URL does not depend on the files present. */
  lemma CacheSkipped(files1: set<string>, files2: set<string>, text: string, hasClient: bool,
                     md5hex: string -> string, synthesis: Synthesis)
    ensures Generate(files1, text, false, hasClient, md5hex, synthesis).url
         == Generate(files2, text, false, hasClient, md5hex, synthesis).url
  {
  }

  /** A cache miss followed by a failure of the speech service yields the fallback URL. */
  lemma FailureFallsBack(files: set<string>, text: string, useCache: bool, md5hex: string -> string,
                         synthesis: Synthesis)
    requires !useCache || CachePath(md5hex(text)) !in files
    requires synthesis != Streamed
    ensures Generate(files, text, useCache, true, md5hex, synthesis).url == FallbackUrl
  {
  }

  /**
   * A freshly generated file is saved under the name the cache lookup uses, so the URL the
   * generation returns is the one the lookup builds (the digest being hexadecimal).
   */
  lemma {:induction false} SavedUrlIsCacheUrl(files: set<string>, text: string, md5hex: string -> string)
    requires IsHex(md5hex(text))
    ensures var r := Generate(files, text, false, true, md5hex, Streamed);
      && CachedAudio(r.files, md5hex(text)) == Some(r.url)
  {
    var digest := md5hex(text);
    Strings.BasenameOfJoin(AudioDir, CacheFilename(digest));
  }

  /**
   * Once a call with a client returns a generated or cached URL, a repeat call for the same text
   * with the cache returns that URL without synthesising again.
   */
  lemma {:induction false} RepeatCallHitsCache(files: set<string>, text: string, useCache: bool,
                                               md5hex: string -> string, first: Synthesis, second: Synthesis)
    requires IsHex(md5hex(text))
    ensures var r1 := Generate(files, text, useCache, true, md5hex, first);
      r1.url != FallbackUrl ==> Generate(r1.files, text, true, true, md5hex, second) == r1
  {
    var digest := md5hex(text);
    var r1 := Generate(files, text, useCache, true, md5hex, first);
    if r1.url != FallbackUrl {
      var cached := if useCache then CachedAudio(files, digest) else None;
      if cached.None? {
        assert first == Streamed;
        SavedUrlIsCacheUrl(files, text, md5hex);
      }
    }
  }

  /**
   * A stream that fails after the file was opened leaves that file behind: the call returns the
   * fallback, and a later call with the cache serves the incomplete file.
   */
  lemma PartialFileServedLater(files: set<string>, text: string, md5hex: string -> string, later: Synthesis)
    requires CachePath(md5hex(text)) !in files
    ensures var r1 := Generate(files, text, true, true, md5hex, StreamFailed);
      && r1.url == FallbackUrl
      && Generate(r1.files, text, true, true, md5hex, later).url == UrlPrefix + CacheFilename(md5hex(text))
  {
  }

  /** The audio directory as the set of file paths that exist in it. */
  class AudioStore {
    var files: set<string>

    constructor (files: set<string>)
      ensures this.files == files
    {
      this.files := files;
    }

    /**
     * `_save_audio_stream`: opening the file creates it, then the stream is written; the path is
     * returned only when the stream completes.
     */
    method SaveAudioStream(digest: string, completes: bool) returns (path: Option<string>)
      modifies this
      ensures files == old(files) + {CachePath(digest)}
      ensures path.Some? <==> completes
      ensures path.Some? ==> path.value == CachePath(digest)
    {
      var filepath := AudioDir + "/" + CacheFilename(digest);
      files := files + {filepath};
      if !completes {
        return None;
      }
      path := Some(filepath);
    }

    /** `generate_voice`. */
    method GenerateVoice(text: string, useCache: bool, hasClient: bool,
                         md5hex: string -> string, synthesis: Synthesis) returns (url: string)
      modifies this
      ensures VoiceResult(url, files) == Generate(old(files), text, useCache, hasClient, md5hex, synthesis)
    {
      if !hasClient {
        return FallbackUrl;
      }
      var digest := md5hex(text);
      if useCache {
        var cached := CachedAudio(files, digest);
        if cached.Some? {
          return cached.value;
        }
      }
      if synthesis == ConvertFailed {
        return FallbackUrl;
      }
      var path := SaveAudioStream(digest, synthesis == Streamed);
      if path.None? {
        return FallbackUrl;
      }
      url := UrlPrefix + Strings.Basename(path.value);
    }
  }
}
