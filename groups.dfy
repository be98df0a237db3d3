/** The groups directory: a search box over the groups and a form that creates one. */
module Groups {
  import opened Lists
  import opened Text

  datatype Group = Group(
    id: string, name: string, description: string, members: int, posts: int,
    privacy: string, category: string, cover: string, avatar: string, joined: bool)

  /** The `newGroup` cell: what the create form holds. */
  datatype GroupForm = GroupForm(name: string, description: string, privacy: string, category: string)

  /** The form as it starts and as a successful creation leaves it. */
  const EmptyForm := GroupForm("", "", "public", "")

  /** The inputs of the create form. */
  datatype FormField = Name | Description | Category | Privacy

  /** The four mock groups the directory starts with. */
  const SeedGroups: seq<Group> := [
    Group("1", "Photography Enthusiasts", "Share your best shots and learn from other photographers",
          2847, 156, "public", "Photography",
          "https://images.unsplash.com/photo-1606983340126-99ab4feaa64a?w=500",
          "https://images.unsplash.com/photo-1502920917128-1aa500764cbd?w=150", true),
    Group("2", "Fitness & Wellness", "Motivation, tips, and support for your fitness journey",
          5632, 423, "public", "Health",
          "https://images.unsplash.com/photo-1571019613454-1cb2f99b2d8b?w=500",
          "https://images.unsplash.com/photo-1583454110551-21f2fa2afe61?w=150", true),
    Group("3", "Tech Innovators", "Discuss the latest in technology and innovation",
          1234, 89, "private", "Technology",
          "https://images.unsplash.com/photo-1518770660439-4636190af475?w=500",
          "https://images.unsplash.com/photo-1550751827-4bd374c3f58b?w=150", false),
    Group("4", "Travel Buddies", "Find travel companions and share your adventures",
          892, 267, "public", "Travel",
          "https://images.unsplash.com/photo-1506905925346-21bda4d32df4?w=500",
          "https://images.unsplash.com/photo-1488646953014-85cb44e25828?w=150", false)
  ]

  /** An input's `onChange`: that one field of the form takes the typed value. */
  function WithField(f: GroupForm, field: FormField, value: string): (r: GroupForm)
    ensures field == Name ==> r == GroupForm(value, f.description, f.privacy, f.category)
    ensures field == Description ==> r == GroupForm(f.name, value, f.privacy, f.category)
    ensures field == Privacy ==> r == GroupForm(f.name, f.description, value, f.category)
    ensures field == Category ==> r == GroupForm(f.name, f.description, f.privacy, value)
  {
    match field
    case Name => f.(name := value)
    case Description => f.(description := value)
    case Privacy => f.(privacy := value)
    case Category => f.(category := value)
  }

  /** The group `handleCreateGroup` builds from the form: its creator is its one member. */
  function NewGroup(id: string, f: GroupForm): Group {
    Group(id, f.name, f.description, 1, 0, f.privacy, f.category,
          "https://images.unsplash.com/photo-1557804506-669a67965ba0?w=500",
          "https://images.unsplash.com/photo-1522071820081-009f0129c71c?w=150", true)
  }

  /** The cells `groups`, `newGroup` and `showCreateGroup`. */
  datatype Directory = Directory(groups: seq<Group>, form: GroupForm, showCreateGroup: bool)

  /** `handleCreateGroup`: with a name and a description (untrimmed), put the new group in front, reset the form, close the panel. */
  function CreateGroup(d: Directory, id: string): Directory {
    if d.form.name != "" && d.form.description != "" then
      Directory([NewGroup(id, d.form)] + d.groups, EmptyForm, false)
    else d
  }

  /** Without both a name and a description nothing happens; a whitespace name counts as given. */
  lemma CreateGroupNeedsBoth(d: Directory, id: string)
    ensures CreateGroup(d, id) != d <==> d.form.name != "" && d.form.description != ""
  {
    if d.form.name != "" && d.form.description != "" {
      assert |CreateGroup(d, id).groups| == |d.groups| + 1;
    }
  }

  /** A successful creation adds one group in front, copied from the form, and keeps the others in order. */
  lemma CreateGroupPrepends(d: Directory, id: string)
    requires d.form.name != "" && d.form.description != ""
    ensures var r := CreateGroup(d, id);
      |r.groups| == |d.groups| + 1 && r.groups[1..] == d.groups
      && r.groups[0].name == d.form.name && r.groups[0].description == d.form.description
      && r.groups[0].privacy == d.form.privacy && r.groups[0].category == d.form.category
      && r.groups[0].members == 1 && r.groups[0].posts == 0 && r.groups[0].joined
      && r.form == EmptyForm && !r.showCreateGroup
  {
  }

  /** The search test: the lowercased name or category includes the lowercased query. */
  function Matches(g: Group, query: string): bool {
    Contains(ToLower(g.name), ToLower(query)) || Contains(ToLower(g.category), ToLower(query))
  }

  /** `filteredGroups`: the groups the search matches, as an order-preserving subsequence. */
  function FilteredGroups(groups: seq<Group>, query: string): (r: seq<Group>)
    ensures forall g :: g in r <==> g in groups && Matches(g, query)
    ensures IsSubsequence(r, groups)
  {
    var p := (g: Group) => Matches(g, query);
    FilterSubsequence(p, groups);
    Filter(p, groups)
  }

  /** The search test holds exactly when the name or the category contains the query as a slice, ignoring ASCII case. */
  lemma MatchesIff(g: Group, query: string)
    ensures Matches(g, query) <==>
      HasSlice(ToLower(g.name), ToLower(query)) || HasSlice(ToLower(g.category), ToLower(query))
  {
    ContainsIff(ToLower(g.name), ToLower(query));
    ContainsIff(ToLower(g.category), ToLower(query));
  }

  /** An empty search lists every group. */
  lemma EmptyQueryListsAll(groups: seq<Group>)
    ensures FilteredGroups(groups, "") == groups
  {
    var p := (g: Group) => Matches(g, "");
    forall i | 0 <= i < |groups| ensures p(groups[i]) {
      ContainsEmpty(ToLower(groups[i].name));
    }
    FilterAll(p, groups);
  }

  /** The directory page's state. */
  class GroupsPage {
    var groups: seq<Group>
    var newGroup: GroupForm
    var showCreateGroup: bool
    var searchQuery: string

    function State(): Directory
      reads this
    {
      Directory(groups, newGroup, showCreateGroup)
    }

    /** The groups the page lists for the current query. */
    function Visible(): (r: seq<Group>)
      reads this
      ensures forall g :: g in r <==> g in groups && Matches(g, searchQuery)
    {
      FilteredGroups(groups, searchQuery)
    }

    constructor ()
      ensures State() == Directory(SeedGroups, EmptyForm, false) && searchQuery == ""
    {
      groups := SeedGroups;
      newGroup := EmptyForm;
      showCreateGroup := false;
      searchQuery := "";
    }

    /** The "Create Group" button (`open`) or the panel's close and cancel buttons. */
    method SetShowCreateGroup(open: bool)
      modifies this
      ensures State() == old(State()).(showCreateGroup := open) && searchQuery == old(searchQuery)
    {
      showCreateGroup := open;
    }

    /** Typing in the search box. */
    method SetSearchQuery(query: string)
      modifies this
      ensures State() == old(State()) && searchQuery == query
    {
      searchQuery := query;
    }

    /** Typing in, or choosing from, one input of the create form. */
    method SetFormField(field: FormField, value: string)
      modifies this
      ensures State() == old(State()).(form := WithField(old(newGroup), field, value))
      ensures searchQuery == old(searchQuery)
    {
      newGroup := WithField(newGroup, field, value);
    }

    /** `handleCreateGroup`, with the clock reading `id` given. */
    method HandleCreateGroup(id: string)
      modifies this
      ensures State() == CreateGroup(old(State()), id)
      ensures searchQuery == old(searchQuery)
    {
      if newGroup.name != "" && newGroup.description != "" {
        groups := [NewGroup(id, newGroup)] + groups;
        newGroup := EmptyForm;
        showCreateGroup := false;
      }
    }
  }
}
