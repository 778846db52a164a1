/** The capture node's websocket command router. A text message is a
    `/`-separated path `capture/<camera id>/<action>`; the two actions fetch
    a camera's large or small live preview as base64 text. Splitting follows
    boost::split with token compression: a run of separators counts as one. */
module WsRouter {

  import opened Wrappers

  newtype byte = x: int | 0 <= x < 256

  const Separator: char := '/'

  /** websocketpp frame opcodes. */
  datatype Opcode = Continuation | Text | Binary | Close | Ping | Pong

  /** What a camera's two preview getters yield: the JPEG bytes, or None
      when the getter reports failure (empty buffer). */
  datatype PreviewSource = PreviewSource(preview: Option<seq<byte>>, largePreview: Option<seq<byte>>)

  /** A token list the splitter can produce: at least one token, no token
      holds a separator, and only the first and the last token may be empty
      (a leading or a trailing separator). */
  predicate WellFormed(toks: seq<string>)
  {
    && |toks| >= 1
    && (forall i :: 0 <= i < |toks| ==> Separator !in toks[i])
    && (forall i :: 0 < i < |toks| - 1 ==> toks[i] != "")
  }

  /** Splits on `/` with runs of separators compressed into one. The empty
      input gives one empty token; a leading or trailing separator gives an
      empty first or last token. */
  function Split(s: string): (toks: seq<string>)
    ensures WellFormed(toks)
    ensures s != [] && s[0] == Separator ==> |toks| >= 2 && toks[0] == ""
    ensures s != [] && s[0] != Separator ==> toks[0] != ""
  {
    if s == [] then [""]
    else if s[0] == Separator then
      if |s| > 1 && s[1] == Separator then Split(s[1..]) else [""] + Split(s[1..])
    else
      var t := Split(s[1..]);
      [[s[0]] + t[0]] + t[1..]
  }

  /** Joins tokens with single separators. */
  function Join(toks: seq<string>): string
  {
    if |toks| == 0 then ""
    else if |toks| == 1 then toks[0]
    else toks[0] + [Separator] + Join(toks[1..])
  }

  /** The payload with every run of separators collapsed into one. */
  function Compress(s: string): (c: string)
    ensures |c| <= |s|
  {
    if |s| <= 1 then s
    else if s[0] == Separator && s[1] == Separator then Compress(s[1..])
    else [s[0]] + Compress(s[1..])
  }

  /** Joining a list whose first token gained a leading character. */
  lemma {:induction false} JoinConsFirst(c: char, toks: seq<string>)
    requires |toks| >= 1
    ensures Join([[c] + toks[0]] + toks[1..]) == [c] + Join(toks)
  {
    var toks' := [[c] + toks[0]] + toks[1..];
    if |toks| > 1 {
      assert toks'[1..] == toks[1..];
      var rest := [Separator] + Join(toks[1..]);
      assert Join(toks') == ([c] + toks[0]) + rest;
      assert Join(toks) == toks[0] + rest;
      assert ([c] + toks[0]) + rest == [c] + (toks[0] + rest);
    }
  }

  /** Splitting then joining yields the payload with separator runs
      collapsed: the split loses nothing but the repeated separators. */
  lemma {:induction false} JoinSplit(s: string)
    ensures Join(Split(s)) == Compress(s)
    decreases |s|
  {
    if s == [] {
    } else if s[0] == Separator {
      JoinSplit(s[1..]);
      if |s| > 1 && s[1] == Separator {
      } else {
        var t := Split(s[1..]);
        assert ([""] + t)[1..] == t;
      }
    } else {
      JoinSplit(s[1..]);
      JoinConsFirst(s[0], Split(s[1..]));
    }
  }

  /** A word without separators glued in front of a payload extends the
      payload's first token. */
  lemma {:induction false} SplitPrefix(w: string, s: string)
    requires Separator !in w
    ensures Split(w + s) == [w + Split(s)[0]] + Split(s)[1..]
    decreases |w|
  {
    if w != [] {
      SplitPrefix(w[1..], s);
      assert (w + s)[0] == w[0];
      assert (w + s)[1..] == w[1..] + s;
      assert [w[0]] + (w[1..] + Split(s)[0]) == w + Split(s)[0];
    } else {
      assert w + s == s;
      var t := Split(s);
      assert t == [t[0]] + t[1..];
      assert w + t[0] == t[0];
    }
  }

  /** Every well-formed token list is what the splitter makes of its join. */
  lemma {:induction false} SplitJoin(toks: seq<string>)
    requires WellFormed(toks)
    ensures Split(Join(toks)) == toks
    decreases |toks|
  {
    if |toks| == 1 {
      SplitPrefix(toks[0], "");
      assert toks[0] + "" == toks[0];
    } else {
      var rest := toks[1..];
      assert WellFormed(rest) by {
        forall i | 0 < i < |rest| - 1 ensures rest[i] != "" {
          assert rest[i] == toks[i + 1];
        }
      }
      SplitJoin(rest);
      var tail := [Separator] + Join(rest);
      assert Join(toks) == toks[0] + tail;
      SplitPrefix(toks[0], tail);
      assert Split(tail) == [""] + rest by {
        assert tail[0] == Separator && tail[1..] == Join(rest);
        if |rest| > 1 {
          assert rest[0] == toks[1] && toks[1] != "";
          assert Join(rest)[0] == rest[0][0];
        } else if Join(rest) != [] {
          assert Join(rest) == rest[0];
          assert Separator !in rest[0];
          assert Join(rest)[0] != Separator;
        }
      }
      assert toks[0] + "" == toks[0];
      assert [toks[0]] + rest == toks;
    }
  }

  /** Collapsing separator runs first does not change the split. */
  lemma SplitCompress(s: string)
    ensures Split(Compress(s)) == Split(s)
  {
    JoinSplit(s);
    SplitJoin(Split(s));
  }

  /** Token compression: doubling a separator anywhere changes nothing. */
  lemma {:induction false} SplitCollapse(x: string, y: string)
    ensures Split(x + [Separator, Separator] + y) == Split(x + [Separator] + y)
    decreases |x|
  {
    var s, s' := x + [Separator, Separator] + y, x + [Separator] + y;
    if x == [] {
      assert s[1..] == s';
    } else {
      SplitCollapse(x[1..], y);
      assert s[0] == s'[0] == x[0];
      assert s[1..] == x[1..] + [Separator, Separator] + y;
      assert s'[1..] == x[1..] + [Separator] + y;
      if x[0] == Separator && |x| == 1 {
        assert s[1..] == [Separator, Separator] + y;
        assert s'[1..] == [Separator] + y;
        assert s[1..][1..] == s'[1..];
      }
    }
  }

  /** Text after a further separator only adds tokens: the tokens of a
      payload that does not end in a separator are kept as they are. */
  lemma {:induction false} SplitExtend(p: string, q: string)
    requires |p| > 0 && p[|p| - 1] != Separator
    ensures |Split(p + [Separator] + q)| > |Split(p)|
    ensures Split(p + [Separator] + q)[..|Split(p)|] == Split(p)
    decreases |p|
  {
    var s := p + [Separator] + q;
    assert s[0] == p[0];
    if |p| == 1 {
      assert s[1..] == [Separator] + q;
    } else {
      assert s[1..] == p[1..] + [Separator] + q;
      SplitExtend(p[1..], q);
    }
  }

  /** The reply bytes of the small preview as the source builds them: the
      buffer stays empty when the getter fails. */
  function PreviewBytes(src: PreviewSource): (b: seq<byte>)
    ensures src.preview.None? ==> b == []
    ensures src.preview.Some? ==> b == src.preview.value
  {
    if src.preview.Some? then src.preview.value else []
  }

  /** A string as its C form reads it: everything before the first NUL. */
  function CString(s: string): (r: string)
    ensures r <= s && '\0' !in r
    ensures |r| < |s| ==> s[|r|] == '\0'
  {
    if s == [] || s[0] == '\0' then [] else [s[0]] + CString(s[1..])
  }

  /** A string without NUL is its own C form. */
  lemma CStringWithoutNul(s: string)
    requires '\0' !in s
    ensures CString(s) == s
  {
  }

  /** The C form of a string that starts with a NUL-free part and a NUL is that part. */
  lemma {:induction false} CStringPrefix(p: string, q: string)
    requires '\0' !in p && q != [] && q[0] == '\0'
    ensures CString(p + q) == p
  {
    if p != [] {
      assert (p + q)[1..] == p[1..] + q;
      CStringPrefix(p[1..], q);
    }
  }

  /** The route of a message: its opcode is text and its split payload has
      at least three tokens, the first being `capture`. */
  predicate IsCapture(op: Opcode, toks: seq<string>)
  {
    op == Text && |toks| >= 3 && toks[0] == "capture"
  }

  /** on_message as written. Short, non-text and non-capture messages, an
      unknown camera and an unknown action get no reply. `large_preview`
      replies with the base64 of the large preview when there is one.
      `preview` always replies `<id>;<base64>`: its condition is a comma
      expression whose value is the address of a local, never null, so the
      getter's result is ignored. */
  function OnMessage(op: Opcode, payload: string, cameras: map<string, PreviewSource>,
                     base64: seq<byte> -> string): (reply: Option<string>)
    ensures var toks := Split(payload);
      reply.Some? <==>
        && IsCapture(op, toks) && CString(toks[1]) in cameras
        && (toks[2] == "preview" || (toks[2] == "large_preview" && cameras[CString(toks[1])].largePreview.Some?))
    ensures var toks := Split(payload);
      reply.Some? && toks[2] == "large_preview" ==> reply.value == base64(cameras[CString(toks[1])].largePreview.value)
    ensures var toks := Split(payload);
      reply.Some? && toks[2] == "preview" ==>
        reply.value == toks[1] + ";" + base64(PreviewBytes(cameras[CString(toks[1])]))
  {
    var paths := Split(payload);
    if |paths| < 3 || op != Text then None
    else if paths[0] != "capture" then None
    else
      var camUniqueId, action := paths[1], paths[2];
      var key := CString(camUniqueId);
      if key !in cameras then None
      else if action == "large_preview" then
        var large := cameras[key].largePreview;
        if large.Some? then Some(base64(large.value)) else None
      else if action == "preview" then
        Some(camUniqueId + ";" + base64(PreviewBytes(cameras[key])))
      else None
  }

  /** on_message as evidently intended: `preview` replies only when the
      getter succeeded, like `large_preview`. */
  function OnMessageIntended(op: Opcode, payload: string, cameras: map<string, PreviewSource>,
                             base64: seq<byte> -> string): (reply: Option<string>)
    ensures var toks := Split(payload);
      reply.Some? <==>
        && IsCapture(op, toks) && CString(toks[1]) in cameras
        && ((toks[2] == "preview" && cameras[CString(toks[1])].preview.Some?)
            || (toks[2] == "large_preview" && cameras[CString(toks[1])].largePreview.Some?))
  {
    var paths := Split(payload);
    if |paths| < 3 || op != Text then None
    else if paths[0] != "capture" then None
    else
      var camUniqueId, action := paths[1], paths[2];
      var key := CString(camUniqueId);
      if key !in cameras then None
      else if action == "large_preview" then
        var large := cameras[key].largePreview;
        if large.Some? then Some(base64(large.value)) else None
      else if action == "preview" then
        var small := cameras[key].preview;
        if small.Some? then Some(camUniqueId + ";" + base64(small.value)) else None
      else None
  }

  /** Doubling a separator anywhere in the payload does not change the reply. */
  lemma RouteIgnoresRepeatedSeparators(op: Opcode, x: string, y: string,
                                       cameras: map<string, PreviewSource>, base64: seq<byte> -> string)
    ensures OnMessage(op, x + [Separator, Separator] + y, cameras, base64)
         == OnMessage(op, x + [Separator] + y, cameras, base64)
  {
    SplitCollapse(x, y);
  }

  /** Tokens after the third do not change the reply. */
  lemma RouteIgnoresExtraTokens(op: Opcode, p: string, q: string,
                                cameras: map<string, PreviewSource>, base64: seq<byte> -> string)
    requires |Split(p)| >= 3 && |p| > 0 && p[|p| - 1] != Separator
    ensures OnMessage(op, p + [Separator] + q, cameras, base64) == OnMessage(op, p, cameras, base64)
  {
    var toks, toks' := Split(p), Split(p + [Separator] + q);
    SplitExtend(p, q);
    assert toks'[0] == toks'[..|toks|][0] == toks[0];
    assert toks'[1] == toks'[..|toks|][1] == toks[1];
    assert toks'[2] == toks'[..|toks|][2] == toks[2];
  }

  /** A payload addressing a camera: `capture/<id>/<action>`. */
  function CommandPayload(id: string, action: string): string
  {
    Join(["capture", id, action])
  }

  /** Splitting a command addressed to a camera recovers its three parts,
      as long as neither the id nor the action holds a separator. */
  lemma CommandTokens(id: string, action: string)
    requires id != "" && Separator !in id && Separator !in action
    ensures Split(CommandPayload(id, action)) == ["capture", id, action]
  {
    var toks := ["capture", id, action];
    assert Separator !in toks[0];
    assert WellFormed(toks);
    SplitJoin(toks);
  }

  /** The comma-operator defect: a known camera whose preview getter fails
      still gets a `preview` reply, `<id>;` followed by the base64 of
      nothing, where the intended router stays silent. */
  lemma PreviewRepliesWithoutImage(id: string, cameras: map<string, PreviewSource>,
                                   base64: seq<byte> -> string)
    requires id != "" && Separator !in id && '\0' !in id
    requires id in cameras && cameras[id].preview.None?
    ensures OnMessage(Text, CommandPayload(id, "preview"), cameras, base64) == Some(id + ";" + base64([]))
    ensures OnMessageIntended(Text, CommandPayload(id, "preview"), cameras, base64) == None
  {
    CommandTokens(id, "preview");
    CStringWithoutNul(id);
  }

  /** The camera is looked up by the id token's C form, so a NUL in the
      token ends the id used for the lookup while the reply still carries
      the whole token. */
  lemma LookupStopsAtNul(id: string, rest: string, cameras: map<string, PreviewSource>,
                         base64: seq<byte> -> string)
    requires id != "" && Separator !in id && '\0' !in id && Separator !in rest
    requires id in cameras
    ensures var token := id + ['\0'] + rest;
      OnMessage(Text, CommandPayload(token, "preview"), cameras, base64)
        == Some(token + ";" + base64(PreviewBytes(cameras[id])))
  {
    var token := id + ['\0'] + rest;
    CommandTokens(token, "preview");
    CStringWithoutNul(id);
    assert CString(token) == id by {
      assert token == id + (['\0'] + rest);
      CStringPrefix(id, ['\0'] + rest);
    }
  }

  /** The intended router differs from the written one only on that case. */
  lemma IntendedAgreesOtherwise(op: Opcode, payload: string, cameras: map<string, PreviewSource>,
                                base64: seq<byte> -> string)
    ensures var toks := Split(payload);
      OnMessage(op, payload, cameras, base64) != OnMessageIntended(op, payload, cameras, base64)
      <==> IsCapture(op, toks) && CString(toks[1]) in cameras && toks[2] == "preview"
           && cameras[CString(toks[1])].preview.None?
  {
  }
}
