/**
 * The decoder session: a usable/unusable engine handle, the engine's picture
 * cursor, and the timestamp relay, two sets of token addresses (free and lent
 * to the engine) over heap cells that hold one time each.
 *
 * The decoding engine is an oracle: whether it accepts a frame, which picture
 * (if any) it yields next, and where its cursor then stands are parameters.
 */
module VpxDecoder {
  import opened PlaneMath
  import opened VpxImage

  datatype Option<T> = None | Some(value: T)

  /** The container's video codec, as the demuxer reports it. */
  datatype VideoCodec = NoVideo | VideoVP8 | VideoVP9

  /** The engine's picture cursor: `Start` is the null iterator. */
  datatype Cursor = Start | Position(at: nat)

  /** One encoded frame from the demuxer. */
  datatype Frame = Frame(buffer: seq<bv8>, time: Time)

  /** The least address in a non-empty set: what `begin()` of an ordered set of pointers yields. */
  ghost function LeastToken(s: set<Token>): (m: Token)
    requires s != {}
    ensures m in s
    ensures forall x :: x in s ==> m <= x
  {
    var a :| a in s;
    if s == {a} then a
    else
      var m' := LeastToken(s - {a});
      assert forall x :: x in s ==> x == a || x in s - {a};
      if a <= m' then a else m'
  }

  /** An address above every address in `s`, so that one outside `s` exists. */
  ghost function AddressBound(s: set<Token>): (b: Token)
    ensures forall x :: x in s ==> x < b
  {
    if s == {} then 0
    else
      var a :| a in s;
      var b' := AddressBound(s - {a});
      assert forall x :: x in s ==> x == a || x in s - {a};
      if a < b' then b' else a + 1
  }

  /** Adding one new element to a set adds one occurrence to its multiset. */
  lemma MultisetOfInsert(s: set<Token>, t: Token)
    requires t !in s
    ensures multiset(s + {t}) == multiset(s) + multiset{t}
  {
  }

  class Decoder {
    /** Whether the engine handle is non-null. */
    var usable: bool
    /** The engine's cursor over the pictures of the latest decode call. */
    var iter: Cursor
    /** Tokens free for reuse. */
    var timesPool: set<Token>
    /** Tokens lent to the engine and not yet seen again. */
    var timesInUse: set<Token>
    /** The heap cells behind the tokens: every token ever allocated and the time it holds. */
    var times: map<Token, Time>

    /** Every allocated token is free, or lent, or both; nothing else is in either set. */
    ghost predicate Valid()
      reads this
    {
      timesPool + timesInUse == times.Keys
    }

    /** The invariant a free list keeps when lending removes a token from it: a token sits in exactly one of the two sets. */
    ghost predicate Disjoint()
      reads this
    {
      timesPool !! timesInUse
    }

    /**
     * A session for `codec`: usable exactly when the codec is VP8 or VP9 and
     * the engine's initialisation (`engineInitOk`) succeeds.
     */
    constructor (codec: VideoCodec, engineInitOk: bool)
      ensures Valid() && Disjoint()
      ensures usable == (codec != NoVideo && engineInitOk)
      ensures iter == Start
      ensures timesPool == {} && timesInUse == {} && times == map[]
    {
      usable := codec != NoVideo && engineInitOk;
      iter := Start;
      timesPool, timesInUse := {}, {};
      times := map[];
    }

    /**
     * `decode`: takes the least free token, or allocates a new one when none
     * is free, stores the frame's time in it, lends it to the engine and
     * resets the cursor. The reused token is not taken out of the free set.
     * The result is the engine's verdict; a null engine handle rejects every
     * frame.
     */
    method Decode(frame: Frame, engineAccepts: bool) returns (ok: bool, lent: Token)
      requires Valid()
      modifies this
      ensures Valid()
      ensures ok == (usable && engineAccepts)
      ensures lent in timesInUse && lent in times && times[lent] == frame.time
      ensures times == old(times)[lent := frame.time]
      ensures timesInUse == old(timesInUse) + {lent}
      ensures timesPool == old(timesPool)
      ensures old(timesPool) != {} ==> lent in old(timesPool) && forall x :: x in old(timesPool) ==> lent <= x
      ensures old(timesPool) != {} ==> lent in timesPool && lent in timesInUse
      ensures old(timesPool) == {} ==> lent !in old(times) && lent != 0
      ensures iter == Start
      ensures usable == old(usable)
    {
      if timesPool != {} {
        assert LeastToken(timesPool) in timesPool;  // a least free token exists
        lent :| lent in timesPool && forall x :: x in timesPool ==> lent <= x;
      } else {
        assert AddressBound(times.Keys) + 1 !in times;  // an unallocated non-null address exists
        lent :| lent !in times && lent != 0;
      }
      timesInUse := timesInUse + {lent};
      times := times[lent := frame.time];
      iter := Start;
      ok := usable && engineAccepts;
    }

    /**
     * `decode` with the reused token taken out of the free set, so a token
     * lent to the engine is never lent again before it comes back and no
     * in-flight time is overwritten.
     */
    method DecodeCorrected(frame: Frame, engineAccepts: bool) returns (ok: bool, lent: Token)
      requires Valid() && Disjoint()
      modifies this
      ensures Valid() && Disjoint()
      ensures ok == (usable && engineAccepts)
      ensures lent !in old(timesInUse)
      ensures lent in timesInUse && lent !in timesPool && times[lent] == frame.time
      ensures forall t :: t in old(timesInUse) ==> t in times && times[t] == old(times)[t]
      ensures times == old(times)[lent := frame.time]
      ensures timesInUse == old(timesInUse) + {lent}
      ensures timesPool == old(timesPool) - {lent}
      ensures old(timesPool) != {} ==> lent in old(timesPool) && forall x :: x in old(timesPool) ==> lent <= x
      ensures old(timesPool) == {} ==> lent !in old(times) && lent != 0
      ensures iter == Start
      ensures usable == old(usable)
    {
      if timesPool != {} {
        assert LeastToken(timesPool) in timesPool;  // a least free token exists
        lent :| lent in timesPool && forall x :: x in timesPool ==> lent <= x;
        timesPool := timesPool - {lent};
      } else {
        assert AddressBound(times.Keys) + 1 !in times;  // an unallocated non-null address exists
        lent :| lent !in times && lent != 0;
      }
      timesInUse := timesInUse + {lent};
      times := times[lent := frame.time];
      iter := Start;
      ok := usable && engineAccepts;
    }

    /**
     * `getImage`: asks the engine for its next picture (`picture`, after which
     * the engine's cursor stands at `cursor`). With no picture, nothing but
     * the cursor changes and the status is `NoFrame`. A yielded picture is
     * classified, translated into the caller's image only on `NoError` with
     * the time its token holds, and its token returns to the free set
     * whatever the status. A null engine handle yields nothing.
     */
    method GetImage(image: Image, picture: Option<Picture>, cursor: Cursor) returns (err: Status, result: Image)
      requires Valid()
      requires usable && picture.Some? ==> picture.value.userPriv in times
      modifies this
      ensures Valid()
      ensures old(Disjoint()) ==> Disjoint()
      ensures times == old(times) && usable == old(usable)
      ensures iter == (if usable then cursor else old(iter))
      ensures !usable || picture.None? ==>
        err == NoFrame && result == image &&
        timesPool == old(timesPool) && timesInUse == old(timesInUse)
      ensures usable && picture.Some? ==>
        var token := picture.value.userPriv;
        err == Classify(picture.value) &&
        token in timesPool && token !in timesInUse &&
        timesPool == old(timesPool) + {token} &&
        timesInUse == old(timesInUse) - {token} &&
        (err == NoError ==> result == Translate(picture.value, times[token]) && result.time == times[token]) &&
        (err != NoError ==> result == image)
    {
      err, result := NoFrame, image;
      var img := if usable then picture else None;
      if usable {
        iter := cursor;
      }
      if img.Some? {
        var pic := img.value;
        var token := pic.userPriv;
        if pic.fmt & IMG_FMT_PLANAR != 0 && pic.fmt & (IMG_FMT_HAS_ALPHA | IMG_FMT_HIGHBITDEPTH) == 0 {
          if pic.stride[0] != 0 && pic.stride[1] != 0 && pic.stride[2] != 0 {
            result := Translate(pic, times[token]);
            err := NoError;
          }
        } else {
          err := UnsupportedFrame;
        }
        timesPool := timesPool + {token};
        timesInUse := timesInUse - {token};
      }
    }

    /**
     * The destructor's deletions: with a non-null engine handle, every free
     * token and then every lent token is deleted, so a token in both sets is
     * deleted twice; with a null handle nothing is deleted.
     */
    method Destroy() returns (freed: multiset<Token>)
      ensures !usable ==> freed == multiset{}
      ensures usable ==> freed == multiset(timesPool) + multiset(timesInUse)
      ensures usable ==> forall t :: freed[t] == (if t in timesPool then 1 else 0) + (if t in timesInUse then 1 else 0)
      ensures usable && Disjoint() ==> forall t :: freed[t] <= 1
    {
      freed := multiset{};
      if usable {
        var rest := timesPool;
        while rest != {}
          invariant rest <= timesPool
          invariant freed == multiset(timesPool - rest)
          decreases rest
        {
          var t :| t in rest;
          assert timesPool - (rest - {t}) == (timesPool - rest) + {t};
          MultisetOfInsert(timesPool - rest, t);
          freed := freed + multiset{t};
          rest := rest - {t};
        }
        rest := timesInUse;
        while rest != {}
          invariant rest <= timesInUse
          invariant freed == multiset(timesPool) + multiset(timesInUse - rest)
          decreases rest
        {
          var t :| t in rest;
          assert timesInUse - (rest - {t}) == (timesInUse - rest) + {t};
          MultisetOfInsert(timesInUse - rest, t);
          freed := freed + multiset{t};
          rest := rest - {t};
        }
      }
    }
  }

  /** A supported 4:2:0 planar picture carrying `token`, with distinct planes and nonzero strides. */
  function PlanarPicture(token: Token): (pic: Picture)
    ensures Classify(pic) == NoError
    ensures pic.userPriv == token
  {
    Picture(IMG_FMT_PLANAR | 2, [10, 20, 30, 0], [64, 32, 32, 0], 64, 48, 1, 1, token)
  }

  /**
   * The session as written, with an engine that holds back the second
   * frame's picture: frame 1 (time 1.0) is decoded and drained, frames 2
   * (time 2.0) and 3 (time 3.0) are both submitted, and frame 2's picture
   * then arrives. Both later decodes reuse frame 1's token, so frame 2's
   * picture reports frame 3's time.
   */
  method StaleTimestampAsWritten() returns (status: Status, recovered: Time)
    ensures status == NoError
    ensures recovered == 3.0
  {
    var blank := Image(0, 0, 0, 0, [0, 0, 0], [0, 0, 0], 0.0);
    var d := new Decoder(VideoVP9, true);
    var ok1, t1 := d.Decode(Frame([], 1.0), true);
    var s1, image1 := d.GetImage(blank, Some(PlanarPicture(t1)), Position(1));
    var ok2, t2 := d.Decode(Frame([], 2.0), true);
    var none, image2 := d.GetImage(image1, None, Position(1));
    var ok3, t3 := d.Decode(Frame([], 3.0), true);
    assert t2 == t1 && t3 == t1;
    var image3;
    status, image3 := d.GetImage(image2, Some(PlanarPicture(t2)), Position(1));
    recovered := image3.time;
  }

  /** The same sequence with the corrected decode: frame 2's picture reports frame 2's time. */
  method TimestampRoundTripCorrected() returns (status: Status, recovered: Time)
    ensures status == NoError
    ensures recovered == 2.0
  {
    var blank := Image(0, 0, 0, 0, [0, 0, 0], [0, 0, 0], 0.0);
    var d := new Decoder(VideoVP9, true);
    var ok1, t1 := d.DecodeCorrected(Frame([], 1.0), true);
    var s1, image1 := d.GetImage(blank, Some(PlanarPicture(t1)), Position(1));
    var ok2, t2 := d.DecodeCorrected(Frame([], 2.0), true);
    var none, image2 := d.GetImage(image1, None, Position(1));
    var ok3, t3 := d.DecodeCorrected(Frame([], 3.0), true);
    assert t3 != t2;
    var image3;
    status, image3 := d.GetImage(image2, Some(PlanarPicture(t2)), Position(1));
    recovered := image3.time;
  }
}
