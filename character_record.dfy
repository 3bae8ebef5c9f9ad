/**
 * The edit handlers of one roster row. Each copies the character and changes
 * one field of the copy before handing it on; the controls' enabled states
 * are described as data.
 */
module CharacterRecord {
  import opened Wrappers
  import opened Characters

  /** Typing a player name: the copy gets the name and stops being shared with the villain. */
  method EditPlayer(ch: Character, input: string) returns (c: Character)
    ensures c.player == Some(input) && !c.sharedWithVillainIfUnused
    ensures c.(player := ch.player, sharedWithVillainIfUnused := ch.sharedWithVillainIfUnused) == ch
  {
    c := ch.Copy();
    c := c.(player := Some(input));
    c := c.(sharedWithVillainIfUnused := false);
  }

  /** The Killed checkbox: only `killed` flips, and flipping it again gives back the original. */
  method ToggleKilled(ch: Character) returns (c: Character)
    ensures c.killed == !ch.killed
    ensures c.(killed := ch.killed) == ch
    ensures c.(killed := !c.killed) == ch
  {
    c := ch.Copy();
    c := c.(killed := !c.killed);
  }

  /** The Final Vote checkbox: only `finalVoteUsed` flips. */
  method ToggleFinalVote(ch: Character) returns (c: Character)
    ensures c.finalVoteUsed == !ch.finalVoteUsed
    ensures c.(finalVoteUsed := ch.finalVoteUsed) == ch
    ensures c.(finalVoteUsed := !c.finalVoteUsed) == ch
  {
    c := ch.Copy();
    c := c.(finalVoteUsed := !c.finalVoteUsed);
  }

  /** The Share Unused checkbox: only `sharedWithVillainIfUnused` flips. */
  method ToggleShare(ch: Character) returns (c: Character)
    ensures c.sharedWithVillainIfUnused == !ch.sharedWithVillainIfUnused
    ensures c.(sharedWithVillainIfUnused := ch.sharedWithVillainIfUnused) == ch
    ensures c.(sharedWithVillainIfUnused := !c.sharedWithVillainIfUnused) == ch
  {
    c := ch.Copy();
    c := c.(sharedWithVillainIfUnused := !c.sharedWithVillainIfUnused);
  }

  /** Which controls a row shows (`offered`) and which of them accept input (`enabled`). */
  datatype Controls = Controls(
    playerInputEnabled: bool,
    killedEnabled: bool,
    finalVoteOffered: bool,
    finalVoteEnabled: bool,
    shareOffered: bool,
    shareEnabled: bool)

  function ControlsFor(ch: Character, killOnly: bool): (r: Controls)
    ensures r.killedEnabled
    ensures r.shareEnabled <==> ch.Unused() && ch.IsGood()
    ensures r.finalVoteEnabled <==> ch.killed
    ensures killOnly ==> !r.playerInputEnabled && !r.finalVoteOffered && !r.shareOffered
    ensures !killOnly ==> r.playerInputEnabled && r.finalVoteOffered && r.shareOffered
  {
    Controls(
      playerInputEnabled := !killOnly,
      killedEnabled := true,
      finalVoteOffered := !killOnly,
      finalVoteEnabled := ch.killed,
      shareOffered := !killOnly,
      shareEnabled := !(Truthy(ch.player) || ch.IsEvil()))
  }
}
