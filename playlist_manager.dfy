/** Named playlists forwarded to the sequential player. */
module Playlists {
  import opened Common
  import opened SequentialAudio

  /** A playlist entry; `id` stands for the entry's identity, which the manager compares. */
  datatype Playlist = Playlist(id: nat, name: string, clips: Clips)

  /** List.Find by name: the index of the first playlist called `name`, or -1. */
  function FindIndex(playlists: seq<Playlist>, name: string): (r: int)
    ensures -1 <= r < |playlists|
    ensures r == -1 <==> forall j :: 0 <= j < |playlists| ==> playlists[j].name != name
    ensures r >= 0 ==> playlists[r].name == name && forall j :: 0 <= j < r ==> playlists[j].name != name
  {
    if |playlists| == 0 then -1
    else if playlists[0].name == name then 0
    else
      var k := FindIndex(playlists[1..], name);
      if k == -1 then -1 else k + 1
  }

  function Find(playlists: seq<Playlist>, name: string): (r: Option<Playlist>)
    ensures r.None? <==> forall j :: 0 <= j < |playlists| ==> playlists[j].name != name
    ensures r.Some? ==> r.value in playlists && r.value.name == name
  {
    var k := FindIndex(playlists, name);
    if k == -1 then None else Some(playlists[k])
  }

  class PlaylistManager {
    const playlists: seq<Playlist>
    const player: SequentialAudioPlayer
    var currentPlaylist: Option<Playlist>

    constructor (playlists: seq<Playlist>, player: SequentialAudioPlayer)
      ensures this.playlists == playlists && this.player == player && currentPlaylist.None?
    {
      this.playlists := playlists;
      this.player := player;
      currentPlaylist := None;
    }

    /** Start: the first playlist, if any, becomes current and is played without force. */
    method Start(dspTime: real)
      requires Valid(player.Model())
      modifies this, player
      ensures |playlists| > 0 ==>
        currentPlaylist == Some(playlists[0]) &&
        player.Model() == Play(old(player.Model()), playlists[0].clips, false, dspTime)
      ensures |playlists| == 0 ==> currentPlaylist == old(currentPlaylist) && player.Model() == old(player.Model())
    {
      if |playlists| > 0 {
        currentPlaylist := Some(playlists[0]);
        player.PlayPlaylist(playlists[0].clips, false, dspTime);
      }
    }

    /**
     * Plays the first playlist called `playlistName`. Asking for the current one, or for an unknown
     * name, changes nothing; another found playlist becomes current and its clips go to the player.
     */
    method PlayPlaylist(playlistName: string, force: bool, dspTime: real)
      requires Valid(player.Model())
      modifies this, player
      ensures var found := Find(playlists, playlistName);
        if found.Some? && found != old(currentPlaylist) then
          currentPlaylist == found && player.Model() == Play(old(player.Model()), found.value.clips, force, dspTime)
        else
          currentPlaylist == old(currentPlaylist) && player.Model() == old(player.Model())
    {
      var found := Find(playlists, playlistName);
      if found.Some? {
        if currentPlaylist != found {
          currentPlaylist := found;
          player.PlayPlaylist(found.value.clips, force, dspTime);
        }
      }
    }

    method Stop()
      modifies this, player
      ensures currentPlaylist.None? && player.Model() == Stopped(old(player.Model()))
    {
      player.StopPlaylist();
      currentPlaylist := None;
    }
  }

  /** Requesting the same playlist twice forwards it once: the second request changes nothing. */
  method RequestTwice(pm: PlaylistManager, name: string, force: bool, dspTime: real)
    requires Valid(pm.player.Model())
    modifies pm, pm.player
    ensures var found := Find(pm.playlists, name);
      if found.Some? && found != old(pm.currentPlaylist) then
        pm.currentPlaylist == found && pm.player.Model() == Play(old(pm.player.Model()), found.value.clips, force, dspTime)
      else
        pm.currentPlaylist == old(pm.currentPlaylist) && pm.player.Model() == old(pm.player.Model())
  {
    pm.PlayPlaylist(name, force, dspTime);
    pm.PlayPlaylist(name, force, dspTime);
  }
}
