/** The avatar catalogue (frontend/src/app/utils/getAvatarById.ts); image sources are not modelled. */
module Avatars {
  import opened Wrappers

  datatype Avatar = Avatar(id: string, caption: string)  // `label` in the source

  const AVATAR_LIST: seq<Avatar> := [
    Avatar("1", "Carer 1"), Avatar("2", "Carer 2"), Avatar("3", "Carer 3"), Avatar("4", "Carer 4"),
    Avatar("5", "Carer 5"), Avatar("6", "Carer 6"), Avatar("7", "Carer 7"), Avatar("8", "Carer 8"),
    Avatar("9", "Resident 1"), Avatar("10", "Resident 2"), Avatar("11", "Resident 3"), Avatar("12", "Resident 4"),
    Avatar("13", "Resident 5"), Avatar("14", "Resident 6"), Avatar("15", "Tutor 1"), Avatar("16", "Tutor 2"),
    Avatar("17", "Carer 9"), Avatar("18", "Carer 10"), Avatar("19", "Robot 1"), Avatar("20", "Resident 7"),
    Avatar("21", "Resident 8"), Avatar("22", "Resident 9"), Avatar("23", "Resident 10"), Avatar("24", "Resident 11"),
    Avatar("25", "Resident 12")
  ]

  /** The catalogue has 25 avatars and no two share an id. */
  lemma AvatarIdsDistinct()
    ensures |AVATAR_LIST| == 25
    ensures forall i, j :: 0 <= i < j < |AVATAR_LIST| ==> AVATAR_LIST[i].id != AVATAR_LIST[j].id
  {
  }

  /** `Array.prototype.find` on the ids: the first avatar with the id (see `FindFirstAt`). */
  function FindById(avatars: seq<Avatar>, id: string): (r: Option<Avatar>)
    ensures r.Some? ==> r.value in avatars && r.value.id == id
    ensures r.None? <==> forall k :: 0 <= k < |avatars| ==> avatars[k].id != id
  {
    if avatars == [] then None
    else if avatars[0].id == id then Some(avatars[0])
    else FindById(avatars[1..], id)
  }

  /** `getAvatarById`: the catalogue avatar with the id, if any. */
  function GetAvatarById(id: string): (r: Option<Avatar>)
    ensures r.Some? ==> r.value in AVATAR_LIST && r.value.id == id
    ensures r.None? <==> forall k :: 0 <= k < |AVATAR_LIST| ==> AVATAR_LIST[k].id != id
  {
    FindById(AVATAR_LIST, id)
  }

  /** The avatar at a position is found by its id when no earlier avatar has that id. */
  lemma {:induction false} FindFirstAt(avatars: seq<Avatar>, i: nat)
    requires i < |avatars|
    requires forall j :: 0 <= j < i ==> avatars[j].id != avatars[i].id
    ensures FindById(avatars, avatars[i].id) == Some(avatars[i])
  {
    if i > 0 {
      assert avatars[1..][i - 1] == avatars[i];
      forall j | 0 <= j < i - 1 ensures avatars[1..][j].id != avatars[i].id {
        assert avatars[1..][j] == avatars[j + 1];
      }
      FindFirstAt(avatars[1..], i - 1);
    }
  }

  /** With distinct ids, the avatar found is the one at the id's position. */
  lemma GetAvatarByIdIsThePosition(i: nat)
    requires i < |AVATAR_LIST|
    ensures GetAvatarById(AVATAR_LIST[i].id) == Some(AVATAR_LIST[i])
  {
    AvatarIdsDistinct();
    FindFirstAt(AVATAR_LIST, i);
  }

  /** Known ids. */
  lemma CarerOne()
    ensures GetAvatarById("1") == Some(Avatar("1", "Carer 1"))
  {
    FindFirstAt(AVATAR_LIST, 0);
  }

  lemma TutorOne()
    ensures GetAvatarById("15") == Some(Avatar("15", "Tutor 1"))
  {
    assert forall j :: 0 <= j < 14 ==> AVATAR_LIST[j].id != "15";
    assert AVATAR_LIST[14] == Avatar("15", "Tutor 1");
    FindFirstAt(AVATAR_LIST, 14);
  }

  lemma RobotOne()
    ensures GetAvatarById("19") == Some(Avatar("19", "Robot 1"))
  {
    assert forall j :: 0 <= j < 18 ==> AVATAR_LIST[j].id != "19";
    assert AVATAR_LIST[18] == Avatar("19", "Robot 1");
    FindFirstAt(AVATAR_LIST, 18);
  }

  lemma ResidentTwelve()
    ensures GetAvatarById("25") == Some(Avatar("25", "Resident 12"))
  {
    assert forall j :: 0 <= j < 24 ==> AVATAR_LIST[j].id != "25";
    assert AVATAR_LIST[24] == Avatar("25", "Resident 12");
    FindFirstAt(AVATAR_LIST, 24);
  }

  /** An id outside the catalogue finds nothing. */
  lemma UnknownAvatar()
    ensures GetAvatarById("26").None?
  {
    assert forall k :: 0 <= k < |AVATAR_LIST| ==> AVATAR_LIST[k].id != "26";
  }
}
