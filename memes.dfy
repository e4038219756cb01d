/** The caption rules of src/cogs/memes.py: splitting the command's text
    into captions, and producing a meme only when there is one caption per
    text box of the chosen template. Drawing the text and packing the image
    are not modelled; a produced meme is the list of (box, caption) pairs
    that would be drawn. */
module Memes {
  import opened Wrappers
  import opened Strings
  import Log

  /** The two meme commands. */
  datatype MemeCommand = Small | Aye

  /** `Memes.coords`: the text boxes of each command's template. */
  function Coords(cmd: MemeCommand): (r: seq<(int, int)>)
    ensures cmd == Small ==> |r| == 2
    ensures cmd == Aye ==> |r| == 3
  {
    match cmd
    case Small => [(90, 190), (361, 270)]
    case Aye => [(20, 80), (20, 320), (20, 553)]
  }

  /** The comprehension of `get_captions`: each non-empty piece, stripped. */
  function Captions(pieces: seq<string>): (r: seq<string>)
    ensures |r| <= |pieces|
    decreases |pieces|
  {
    if |pieces| == 0 then []
    else if pieces[0] == "" then Captions(pieces[1..])
    else [Strip(pieces[0])] + Captions(pieces[1..])
  }

  /** Filtering keeps piece order: it works piece by piece. */
  lemma {:induction false} CaptionsAppend(a: seq<string>, b: seq<string>)
    ensures Captions(a + b) == Captions(a) + Captions(b)
    decreases |a|
  {
    if |a| == 0 {
      assert a + b == b;
    } else {
      assert (a + b)[0] == a[0];
      assert (a + b)[1..] == a[1..] + b;
      CaptionsAppend(a[1..], b);
    }
  }

  /** Every caption's characters come from the pieces. */
  lemma {:induction false} CaptionsFromPieces(pieces: seq<string>, d: char)
    requires forall i :: 0 <= i < |pieces| ==> d !in pieces[i]
    ensures forall i :: 0 <= i < |Captions(pieces)| ==> d !in Captions(pieces)[i]
    decreases |pieces|
  {
    if |pieces| > 0 {
      CaptionsFromPieces(pieces[1..], d);
    }
  }

  /** `get_captions(message, delim)` for a one-character delimiter. */
  function GetCaptions(message: string, delim: char := ';'): (r: seq<string>)
    ensures |r| <= multiset(message)[delim] + 1
    ensures forall i :: 0 <= i < |r| ==> delim !in r[i]
  {
    SplitCount(message, delim);
    SplitPieces(message, delim);
    CaptionsFromPieces(Split(message, delim), delim);
    Captions(Split(message, delim))
  }

  /** An empty message has no captions. */
  lemma EmptyMessageNoCaptions(delim: char)
    ensures GetCaptions("", delim) == []
  {
  }

  /** A piece of whitespace only is kept, as an empty caption. */
  lemma {:induction false} BlankPieceKept(blank: string)
    requires |blank| > 0 && forall i :: 0 <= i < |blank| ==> IsSpace(blank[i])
    ensures Captions([blank]) == [""]
  {
  }

  /** Pieces that are exactly empty are dropped. */
  lemma EmptyPieceDropped(pieces: seq<string>)
    ensures Captions([""] + pieces) == Captions(pieces)
  {
    assert ([""] + pieces)[1..] == pieces;
  }

  /** A meme: the boxes of the template paired with the captions. */
  function Placements(boxes: seq<(int, int)>, captions: seq<string>): (r: seq<((int, int), string)>)
    requires |boxes| == |captions|
    ensures |r| == |boxes|
    ensures forall i :: 0 <= i < |r| ==> r[i] == (boxes[i], captions[i])
  {
    seq(|boxes|, (i: int) requires 0 <= i < |boxes| => (boxes[i], captions[i]))
  }

  /** What `write_text_to_img` sends and returns: a meme when the caption
      count equals the box count, otherwise the error reply and no meme. */
  datatype Written = Written(errorReply: Option<string>, meme: Option<seq<((int, int), string)>>)

  function WriteTextToImg(mention: string, cmd: MemeCommand, captions: string): (w: Written)
    ensures w.meme.Some? <==> |GetCaptions(captions)| == |Coords(cmd)|
    ensures w.meme.Some? <==> w.errorReply.None?
    ensures w.meme.Some? ==> w.meme.value == Placements(Coords(cmd), GetCaptions(captions))
    ensures w.errorReply.Some? ==>
              w.errorReply.value
              == Log.CtxError(mention, "There needs to be at least " + NatToString(|Coords(cmd)|) + " captions.")
  {
    var lCaptions := GetCaptions(captions);
    var coords := Coords(cmd);
    if |coords| == |lCaptions| then Written(None, Some(Placements(coords, lCaptions)))
    else Written(Some(Log.CtxError(mention, "There needs to be at least " + NatToString(|coords|) + " captions.")), None)
  }

  /** `send_meme`: sends the file only when there is one. */
  function SendMeme(meme: Option<seq<((int, int), string)>>): (sent: seq<seq<((int, int), string)>>)
    ensures meme.None? <==> sent == []
    ensures meme.Some? ==> sent == [meme.value]
  {
    if meme.Some? then [meme.value] else []
  }
}
