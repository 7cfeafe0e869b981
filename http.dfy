/**
 * The pieces of an Express exchange that the middlewares and handlers touch:
 * the `Authorization` header, `req.user`, the reply that was sent and the
 * calls to `next`, plus JavaScript's `String.prototype.split` on one character.
 */
module Http {
  import opened Wrappers

  /** A decoded JWT payload: claim name to claim value. */
  type Claims = map<string, string>

  /** The JSON body of a reply: `{message: ...}` or `{error: ...}`. */
  datatype Body = Message(text: string) | Error(text: string)

  /** `res.status(status).json(body)`. */
  datatype Reply = Reply(status: int, body: Body)

  /**
   * What a token middleware decides: answer the request itself, or set
   * `req.user` to the decoded payload and hand on to `next`.
   */
  datatype Gate = Deny(reply: Reply) | Admit(user: Claims)

  /** What a role guard decides; `Throws` is an exception that escapes to Express. */
  datatype Guard = Allow | Refuse(reply: Reply) | Throws

  /** `s.split(sep)`: the pieces between separators, empty pieces included. */
  function Split(s: string, sep: char): (parts: seq<string>)
    ensures |parts| >= 1
    ensures forall k :: 0 <= k < |parts| ==> sep !in parts[k]
    ensures |parts| == 1 <==> sep !in s
  {
    if s == [] then [[]]
    else
      var rest := Split(s[1..], sep);
      if s[0] == sep then [[]] + rest
      else [[s[0]] + rest[0]] + rest[1..]
  }

  /** `parts.join(sep)`, the inverse of Split. */
  function Join(parts: seq<string>, sep: char): string
    requires |parts| >= 1
  {
    if |parts| == 1 then parts[0] else parts[0] + [sep] + Join(parts[1..], sep)
  }

  /** Splitting loses nothing: joining the pieces again gives back the header. */
  lemma {:induction false} JoinSplit(s: string, sep: char)
    ensures Join(Split(s, sep), sep) == s
  {
    if s != [] {
      var rest := Split(s[1..], sep);
      JoinSplit(s[1..], sep);
      if s[0] == sep {
        var parts := Split(s, sep);
        assert parts == [[]] + rest;
        assert parts[1..] == rest;
        assert Join(parts, sep) == [sep] + Join(rest, sep);
        assert s == [s[0]] + s[1..];
      } else if |rest| == 1 {
        assert Split(s, sep) == [[s[0]] + rest[0]];
        assert s == [s[0]] + s[1..];
      } else {
        var parts := Split(s, sep);
        assert parts == [[s[0]] + rest[0]] + rest[1..];
        assert parts[1..] == rest[1..];
        assert Join(rest, sep) == rest[0] + [sep] + Join(rest[1..], sep);
        assert s == [s[0]] + s[1..];
      }
    }
  }

  /** A prefix without separators glues onto the first piece of what follows it. */
  lemma {:induction false} SplitPrefix(a: string, rest: string, sep: char)
    requires sep !in a
    ensures Split(a + rest, sep) == [a + Split(rest, sep)[0]] + Split(rest, sep)[1..]
  {
    if a != [] {
      SplitPrefix(a[1..], rest, sep);
      assert (a + rest)[1..] == a[1..] + rest;
      assert (a + rest)[0] == a[0];
      assert [a[0]] + (a[1..] + Split(rest, sep)[0]) == a + Split(rest, sep)[0];
    } else {
      var parts := Split(rest, sep);
      assert a + rest == rest && a + parts[0] == parts[0];
      assert parts == [parts[0]] + parts[1..];
    }
  }

  /** `header.split(" ")[1]`: the piece after the first space, if there is one. */
  function SecondPiece(header: string): (p: Option<string>)
    ensures p.Some? <==> ' ' in header
    ensures p.Some? ==> ' ' !in p.value
    ensures p.Some? ==> exists i :: PieceAfter(header, i, p.value)
  {
    var parts := Split(header, ' ');
    if |parts| >= 2 then
      SecondPieceSits(header);
      Some(parts[1])
    else None
  }

  /**
   * `piece` is what follows the first space of `header`, at index `i`, up to
   * the next space or the end.
   */
  predicate PieceAfter(header: string, i: int, piece: string)
  {
    && 0 <= i && i + 1 + |piece| <= |header|
    && header[i] == ' ' && ' ' !in header[..i]
    && header[i + 1..i + 1 + |piece|] == piece
    && (i + 1 + |piece| == |header| || header[i + 1 + |piece|] == ' ')
  }

  /** The second piece of a split sits right after the first space. */
  lemma SecondPieceSits(header: string)
    requires |Split(header, ' ')| >= 2
    ensures PieceAfter(header, |Split(header, ' ')[0]|, Split(header, ' ')[1])
  {
    var parts := Split(header, ' ');
    JoinSplit(header, ' ');
    var rest := Join(parts[1..], ' ');
    assert header == parts[0] + [' '] + rest;
    if |parts| == 2 {
      assert rest == parts[1];
    } else {
      assert parts[1..][1..] == parts[2..];
      assert rest == parts[1] + [' '] + Join(parts[2..], ' ');
    }
    var i := |parts[0]|;
    assert header[..i] == parts[0];
    assert header[i + 1..i + 1 + |parts[1]|] == parts[1];
  }

  /** A header with no space has no second piece, and one with a space has one. */
  lemma NoSpaceNoPiece(header: string)
    ensures SecondPiece(header).None? <==> ' ' !in header
  {
  }

  /** The conventional `"<scheme> <token>"` header yields exactly the token. */
  lemma {:induction false} SchemeTokenPiece(scheme: string, token: string)
    requires ' ' !in scheme && ' ' !in token
    ensures SecondPiece(scheme + " " + token) == Some(token)
  {
    SplitPrefix(scheme, " " + token, ' ');
    assert (" " + token)[1..] == token;
    assert Split(" " + token, ' ') == [[]] + Split(token, ' ');
    assert Split(token, ' ') == [token] by {
      JoinSplit(token, ' ');
    }
    assert scheme + " " + token == scheme + (" " + token);
  }

  /** The request object as the middlewares see and update it. */
  class Request {
    const authorization: Option<string>
    var user: Option<Claims>
    var sent: Option<Reply>
    var nextCalls: nat

    constructor (authorization: Option<string>)
      ensures this.authorization == authorization
      ensures user == None && sent == None && nextCalls == 0
    {
      this.authorization := authorization;
      user := None;
      sent := None;
      nextCalls := 0;
    }
  }
}
