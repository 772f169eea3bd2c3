/** The track status shown by the replay: which status interval is active at the current frame's time,
    and how its status code is drawn (track colour and HUD banner). */
module TrackStatus {
  import opened Wrappers

  /** One entry of the track-status list: it starts at `startTime` and lasts until `endTime`, or
      until the end of the session when there is no end time. */
  datatype StatusInterval = StatusInterval(startTime: real, endTime: Option<real>, status: string)

  /** The status reported when no interval covers the current time. */
  const DefaultStatus: string := "GREEN"

  /** An interval covers `t` when it has started (inclusive) and has not ended (exclusive). */
  predicate Covers(iv: StatusInterval, t: real) {
    iv.startTime <= t && (iv.endTime.None? || t < iv.endTime.value)
  }

  /** The status of the first interval, in list order, that covers `t`; GREEN when none does. */
  function ActiveStatus(ivs: seq<StatusInterval>, t: real): (s: string)
    ensures (forall j :: 0 <= j < |ivs| ==> !Covers(ivs[j], t)) ==> s == DefaultStatus
    ensures forall i :: 0 <= i < |ivs| && Covers(ivs[i], t) && (forall j :: 0 <= j < i ==> !Covers(ivs[j], t)) ==>
              s == ivs[i].status
  {
    if |ivs| == 0 then DefaultStatus
    else if Covers(ivs[0], t) then ivs[0].status
    else
      var s := ActiveStatus(ivs[1..], t);
      assert forall j :: 1 <= j < |ivs| ==> ivs[1..][j - 1] == ivs[j];
      s
  }

  /** The scan over the status list that stops at the first covering interval. */
  method ResolveTrackStatus(ivs: seq<StatusInterval>, t: real) returns (s: string)
    ensures s == ActiveStatus(ivs, t)
  {
    s := DefaultStatus;
    var i := 0;
    while i < |ivs|
      invariant 0 <= i <= |ivs|
      invariant forall j :: 0 <= j < i ==> !Covers(ivs[j], t)
      invariant ActiveStatus(ivs, t) == ActiveStatus(ivs[i..], t)
    {
      if Covers(ivs[i], t) {
        s := ivs[i].status;
        return;
      }
      assert ivs[i..][1..] == ivs[i + 1..];
      i := i + 1;
    }
  }

  /** Status lists with the same first covering interval resolve alike; the intervals after
      the first covering one do not matter. */
  lemma {:induction false} ActiveStatusIgnoresLater(ivs: seq<StatusInterval>, rest: seq<StatusInterval>, t: real, i: nat)
    requires i < |ivs| && Covers(ivs[i], t)
    ensures ActiveStatus(ivs + rest, t) == ActiveStatus(ivs, t)
  {
    if !Covers(ivs[0], t) {
      assert (ivs + rest)[1..] == ivs[1..] + rest;
      ActiveStatusIgnoresLater(ivs[1..], rest, t, i - 1);
    }
  }

  /** A colour as an (R, G, B) triple. */
  datatype Rgb = Rgb(r: int, g: int, b: int)

  const Grey: Rgb := Rgb(150, 150, 150)
  const Yellow: Rgb := Rgb(220, 180, 0)
  const Red: Rgb := Rgb(200, 30, 30)
  const VirtualSafetyCarColour: Rgb := Rgb(200, 130, 50)
  const SafetyCarColour: Rgb := Rgb(180, 100, 30)

  /** Colour of the track outline for a status code: "2" yellow flag, "4" safety car, "5" red flag,
      "6" and "7" virtual safety car (deployed and ending), anything else the normal grey. */
  function TrackColour(status: string): Rgb {
    if status == "2" then Yellow
    else if status == "4" then SafetyCarColour
    else if status == "5" then Red
    else if status == "6" || status == "7" then VirtualSafetyCarColour
    else Grey
  }

  /** Text colours of the HUD banners. */
  datatype BannerColour = BannerYellow | BannerRed | BannerOrange | BannerBrown

  /** The banner drawn under the race time for a status code. */
  datatype Banner = Banner(text: string, colour: BannerColour)

  function StatusBanner(status: string): Option<Banner> {
    if status == "2" then Some(Banner("YELLOW FLAG", BannerYellow))
    else if status == "5" then Some(Banner("RED FLAG", BannerRed))
    else if status == "6" then Some(Banner("VIRTUAL SAFETY CAR", BannerOrange))
    else if status == "4" then Some(Banner("SAFETY CAR", BannerBrown))
    else None
  }

  /** Exactly the codes "2", "4", "5", "6" and "7" colour the track; the other codes, GREEN among
      them, leave it grey. */
  lemma TrackColourNonGrey(status: string)
    ensures TrackColour(status) != Grey <==> status in {"2", "4", "5", "6", "7"}
    ensures TrackColour(DefaultStatus) == Grey
  {
  }

  /** Every code with a banner also colours the track, and "7" (virtual safety car ending) is the
      only code that colours the track without a banner. */
  lemma BannerAgreesWithColour(status: string)
    ensures StatusBanner(status).Some? <==> status in {"2", "4", "5", "6"}
    ensures StatusBanner(status).Some? ==> TrackColour(status) != Grey
    ensures TrackColour(status) != Grey && StatusBanner(status).None? <==> status == "7"
  {
  }
}
