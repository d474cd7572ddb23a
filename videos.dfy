/** The meditation video library: a fixed catalogue filtered by category, a set of
    favourite video ids toggled from the cards and the player, and the player
    modal with its fullscreen switch. The component's state hooks are the fields
    of `Library`. */
module Videos {
  import opened Wrappers
  import opened Seqs

  /** The fields of a catalogue entry the logic reads or shows as text. */
  datatype Video = Video(
    id: nat,
    title: string,
    duration: string,
    instructor: string,
    category: string,
    difficulty: string)

  /** The six videos, in display order. */
  const Catalogue: seq<Video> := [
    Video(1, "10-Minute Morning Meditation", "10:00", "Sarah Johnson", "morning", "Beginner"),
    Video(2, "Deep Breathing for Anxiety Relief", "15:30", "Dr. Michael Chen", "anxiety", "Beginner"),
    Video(3, "Body Scan Meditation", "20:45", "Emma Thompson", "sleep", "Intermediate"),
    Video(4, "Mindful Walking Meditation", "12:20", "James Wilson", "mindfulness", "Beginner"),
    Video(5, "Loving-Kindness Meditation", "18:15", "Dr. Lisa Park", "emotional", "Intermediate"),
    Video(6, "Advanced Concentration Practice", "25:00", "Robert Kumar", "focus", "Advanced")
  ]

  /** The category buttons: an id and the name shown on it. */
  datatype CategoryTab = CategoryTab(id: string, name: string)

  const Categories: seq<CategoryTab> := [
    CategoryTab("all", "All Videos"),
    CategoryTab("morning", "Morning"),
    CategoryTab("anxiety", "Anxiety Relief"),
    CategoryTab("sleep", "Sleep"),
    CategoryTab("mindfulness", "Mindfulness"),
    CategoryTab("emotional", "Emotional"),
    CategoryTab("focus", "Focus")
  ]

  function CategoryIds(): (ids: seq<string>)
    ensures |ids| == |Categories|
    ensures forall i :: 0 <= i < |Categories| ==> ids[i] == Categories[i].id
  {
    seq(|Categories|, i requires 0 <= i < |Categories| => Categories[i].id)
  }

  /** The test `selectedCategory === "all" || video.category === selectedCategory`. */
  function MatchesCategory(selected: string): Video -> bool {
    (v: Video) => selected == "all" || v.category == selected
  }

  /** `filteredVideos`: the whole catalogue under 'all', otherwise exactly the videos
      of that category, in catalogue order. */
  function FilteredVideos(selected: string): (r: seq<Video>)
    ensures selected == "all" ==> r == Catalogue
    ensures SubsequenceOf(r, Catalogue)
    ensures selected != "all" ==> forall v :: v in r <==> v in Catalogue && v.category == selected
  {
    if selected == "all" then
      FilterKeepsAll(MatchesCategory(selected), Catalogue);
      Filter(MatchesCategory(selected), Catalogue)
    else
      Filter(MatchesCategory(selected), Catalogue)
  }

  /** Every video's category is one of the category ids other than 'all'. */
  lemma CatalogueCategoriesListed(v: Video)
    requires v in Catalogue
    ensures v.category in CategoryIds() && v.category != "all"
  {
    var ids := CategoryIds();
    assert ids == ["all", "morning", "anxiety", "sleep", "mindfulness", "emotional", "focus"];
  }

  /** So each video is listed under exactly one category besides 'all'. */
  lemma OneCategoryEach(v: Video, c: string)
    requires v in Catalogue
    requires c in CategoryIds() && c != "all"
    ensures v in FilteredVideos(c) <==> c == v.category
  {
  }

  lemma EveryVideoHasACategory(v: Video)
    requires v in Catalogue
    ensures exists c :: c in CategoryIds() && c != "all" && v in FilteredVideos(c)
  {
    CatalogueCategoriesListed(v);
    assert v in FilteredVideos(v.category);
  }

  /** The catalogue ids are distinct, so a favourite id names one video. */
  lemma DistinctIds()
    ensures forall i, j :: 0 <= i < j < |Catalogue| ==> Catalogue[i].id != Catalogue[j].id
  {
  }

  /** The favourites after toggling `videoId`: it is removed if present and added if
      absent; every other id keeps its membership. */
  function Toggled(favorites: set<nat>, videoId: nat): (r: set<nat>)
    ensures videoId in r <==> videoId !in favorites
    ensures forall x :: x != videoId ==> (x in r <==> x in favorites)
  {
    if videoId in favorites then favorites - {videoId} else favorites + {videoId}
  }

  /** Toggling the same id twice gives back the original favourites. */
  lemma ToggleTwice(favorites: set<nat>, videoId: nat)
    ensures Toggled(Toggled(favorites, videoId), videoId) == favorites
  {
    var once := Toggled(favorites, videoId);
    var twice := Toggled(once, videoId);
    assert forall x :: x in twice <==> x in favorites by {
      forall x ensures x in twice <==> x in favorites {
        if x == videoId {
        } else {
          assert x in twice <==> x in once;
        }
      }
    }
  }

  /** Toggles of different ids can be done in either order. */
  lemma TogglesCommute(favorites: set<nat>, a: nat, b: nat)
    ensures Toggled(Toggled(favorites, a), b) == Toggled(Toggled(favorites, b), a)
  {
    var ab := Toggled(Toggled(favorites, a), b);
    var ba := Toggled(Toggled(favorites, b), a);
    assert forall x :: x in ab <==> x in ba by {
      forall x ensures x in ab <==> x in ba {
        if x == a || x == b {
        } else {
          assert x in ab <==> x in favorites;
          assert x in ba <==> x in favorites;
        }
      }
    }
  }

  /** `getDifficultyColor`: a fixed colour per level and '#597c49ff' for anything else. */
  function DifficultyColor(difficulty: string): (c: string)
    ensures difficulty == "Beginner" || difficulty == "Intermediate" || difficulty == "Advanced" ==>
              |c| == 7 && c[0] == '#'
    ensures c == "#597c49ff" <==> difficulty != "Beginner" && difficulty != "Intermediate" && difficulty != "Advanced"
  {
    match difficulty
    case "Beginner" => "#48BB78"
    case "Intermediate" => "#ED8936"
    case "Advanced" => "#E53E3E"
    case _ => "#597c49ff"
  }

  /** Every catalogue video has one of the three levels, so the fallback colour is
      never shown. */
  lemma CatalogueDifficultiesColoured(v: Video)
    requires v in Catalogue
    ensures DifficultyColor(v.difficulty) != "#597c49ff"
  {
  }

  class Library {
    var selectedVideo: Option<Video>
    var selectedCategory: string
    var favoriteVideos: set<nat>
    var isFullscreen: bool

    /** The initial state: no video open, every category, no favourites, windowed. */
    constructor ()
      ensures selectedVideo.None? && selectedCategory == "all" && favoriteVideos == {} && !isFullscreen
    {
      selectedVideo, selectedCategory, favoriteVideos, isFullscreen := None, "all", {}, false;
    }

    /** A category button click. */
    method SelectCategory(category: string)
      modifies this
      ensures selectedCategory == category
      ensures selectedVideo == old(selectedVideo) && favoriteVideos == old(favoriteVideos)
      ensures isFullscreen == old(isFullscreen)
    {
      selectedCategory := category;
    }

    /** `toggleFavorite`: a copy of the favourites is updated and becomes the new
        favourites, so the previous set value is left as it was. */
    method ToggleFavorite(videoId: nat)
      modifies this
      ensures favoriteVideos == Toggled(old(favoriteVideos), videoId)
      ensures selectedVideo == old(selectedVideo) && selectedCategory == old(selectedCategory)
      ensures isFullscreen == old(isFullscreen)
    {
      var newFavorites := favoriteVideos;
      if videoId in newFavorites {
        newFavorites := newFavorites - {videoId};
      } else {
        newFavorites := newFavorites + {videoId};
      }
      favoriteVideos := newFavorites;
    }

    /** `openVideoModal`. */
    method OpenVideoModal(video: Video)
      modifies this
      ensures selectedVideo == Some(video)
      ensures selectedCategory == old(selectedCategory) && favoriteVideos == old(favoriteVideos)
      ensures isFullscreen == old(isFullscreen)
    {
      selectedVideo := Some(video);
    }

    /** `closeVideoModal`: no video is open and the player is back to windowed. */
    method CloseVideoModal()
      modifies this
      ensures selectedVideo.None? && !isFullscreen
      ensures selectedCategory == old(selectedCategory) && favoriteVideos == old(favoriteVideos)
    {
      selectedVideo := None;
      isFullscreen := false;
    }

    /** The player's fullscreen button. */
    method ToggleFullscreen()
      modifies this
      ensures isFullscreen == !old(isFullscreen)
      ensures selectedVideo == old(selectedVideo) && selectedCategory == old(selectedCategory)
      ensures favoriteVideos == old(favoriteVideos)
    {
      isFullscreen := !isFullscreen;
    }
  }
}
