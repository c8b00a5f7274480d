/** The Facade example: `watch_video` hides authentication, preferences, recommendations and the
    player behind one call. The subsystems hold no state; printing is modelled as the returned
    lines, and each subsystem call returns its result together with the lines it prints. */
module VideoStreaming {

  /** `Authentication.login`: succeeds exactly for the fixed credentials, and prints which way it
      went. */
  function Login(username: string, password: string): (r: (bool, string))
    ensures r.0 <==> username == "user" && password == "password"
    ensures r.0 ==> r.1 == "User '" + username + "' authenticated successfully."
    ensures !r.0 ==> r.1 == "Authentication failed for user '" + username + "'."
  {
    if username == "user" && password == "password" then
      (true, "User '" + username + "' authenticated successfully.")
    else
      (false, "Authentication failed for user '" + username + "'.")
  }

  function PlayLine(videoId: string): string
  {
    "Playing video with ID: " + videoId
  }

  /** `UserPreferences.load_preferences`: the same preferences for every user. */
  function LoadPreferences(userId: string): (r: (map<string, string>, string))
    ensures r.0 == map["theme" := "dark", "playback_speed" := "1.5x"]
  {
    (map["theme" := "dark", "playback_speed" := "1.5x"], "Loading preferences for user: " + userId)
  }

  /** `Recommendations.get_recommendations`: the same three videos for every user. */
  function GetRecommendations(userId: string): (r: (seq<string>, string))
    ensures r.0 == ["Video1", "Video2", "Video3"]
  {
    (["Video1", "Video2", "Video3"], "Fetching recommendations for user: " + userId)
  }

  const RefusalLine := "Unable to watch video. " + "Authentication required."

  /** `watch_video`: after a failed login only the refusal follows; after a successful one the
      preferences and then the recommendations are loaded for the user name, and the video
      plays. */
  function WatchVideo(username: string, password: string, videoId: string): (out: seq<string>)
    ensures !Login(username, password).0 ==> out == [Login(username, password).1, RefusalLine]
    ensures Login(username, password).0 ==>
              out == [Login(username, password).1, LoadPreferences(username).1,
                      GetRecommendations(username).1, PlayLine(videoId)]
  {
    var (ok, loginLine) := Login(username, password);
    if !ok then
      [loginLine, RefusalLine]
    else
      var userId := username;
      var (_, prefsLine) := LoadPreferences(userId);
      var (_, recsLine) := GetRecommendations(userId);
      [loginLine, prefsLine, recsLine, PlayLine(videoId)]
  }

  /** The play line and the preferences line can never be mistaken for the refusal, nor for a
      failed login's line: they start with a different letter. */
  lemma RefusalLinesDiffer(username: string, password: string, videoId: string)
    ensures PlayLine(videoId) != RefusalLine && LoadPreferences(username).1 != RefusalLine
    ensures !Login(username, password).0 ==>
              PlayLine(videoId) != Login(username, password).1 &&
              LoadPreferences(username).1 != Login(username, password).1
  {
    assert PlayLine(videoId)[0] == 'P' && LoadPreferences(username).1[0] == 'L';
    assert RefusalLine[0] == 'U';
    assert !Login(username, password).0 ==> Login(username, password).1[0] == 'A';
  }

  /** The video plays if and only if the credentials are the fixed ones; a refused user gets no
      further subsystem call. */
  lemma PlaysExactlyWhenAuthenticated(username: string, password: string, videoId: string)
    ensures (PlayLine(videoId) in WatchVideo(username, password, videoId)) <==>
              (username == "user" && password == "password")
    ensures !(username == "user" && password == "password") ==>
              LoadPreferences(username).1 !in WatchVideo(username, password, videoId)
  {
    var out := WatchVideo(username, password, videoId);
    if !(username == "user" && password == "password") {
      assert out == [Login(username, password).1, RefusalLine];
      RefusalLinesDiffer(username, password, videoId);
    }
  }
}
