/** The profile conversation: `/start` asks a user without a name for a name,
    then an age (until a number is given), then a gender, and stores the three
    in one update. The handlers keep what they collect in the per-user
    dictionary of the chat framework and return the next conversation state. */
module Onboarding {
  import opened Wrappers
  import Text
  import opened Ledger

  /** ASK_NAME, ASK_AGE, ASK_GENDER and ConversationHandler.END. */
  datatype State = AskName | AskAge | AskGender | End

  /** One user's side of the conversation: the state the conversation handler
      keeps (`End` while no conversation runs) and `context.user_data`. */
  class Conversation {
    var state: State
    var firstName: Option<string>
    var age: Option<int>
    var gender: Option<string>

    /** Every state past a step has that step's answer in the dictionary. */
    ghost predicate Valid()
      reads this
    {
      && (state == AskAge ==> firstName.Some?)
      && (state == AskGender ==> firstName.Some? && age.Some?)
    }

    /** A user the bot has not talked to yet: no conversation, nothing collected. */
    constructor ()
      ensures state == End && firstName == None && age == None && gender == None
      ensures Valid()
    {
      state := End;
      firstName, age, gender := None, None, None;
    }

    /** `start`: fetch or create the row; ask for a name when it has none,
        otherwise greet and enter no conversation (`None`). */
    static method Start(store: Store, userId: int, username: string) returns (next: Option<State>)
      modifies store
      ensures store.users == WithUser(old(store.users), userId, username)
      ensures store.history == old(store.history)
      ensures next == (if store.users[userId].firstName.None? then Some(AskName) else None)
      ensures userId !in old(store.users) ==> next == Some(AskName)
      ensures old(store.Valid()) ==> store.Valid()
    {
      var u := store.GetUser(userId, username);
      if u.firstName.None? {
        return Some(AskName);
      }
      return None;
    }

    /** `name_handler`: keep the stripped text as the name and ask for the age. */
    method NameHandler(text: string) returns (next: State)
      modifies this`firstName
      ensures firstName == Some(Text.Strip(text))
      ensures next == AskAge
    {
      firstName := Some(Text.Strip(text));
      next := AskAge;
    }

    /** `age_handler`: a text that is not all digits is refused and the question
        repeated; a number is kept and the gender is asked for. */
    method AgeHandler(text: string) returns (next: State)
      modifies this`age
      ensures !Text.IsDigits(text) ==> next == AskAge && age == old(age)
      ensures Text.IsDigits(text) ==> next == AskGender && age == Some(Text.ParseDigits(text))
    {
      if !Text.IsDigits(text) {
        return AskAge;
      }
      age := Some(Text.ParseDigits(text));
      next := AskGender;
    }

    /** `gender_handler`: keep the chosen gender, write name, age and gender
        in one update and end the conversation. The name and the age must have
        been collected (the dictionary lookups raise otherwise). */
    method GenderHandler(store: Store, userId: int, choice: string) returns (next: State)
      requires firstName.Some? && age.Some?
      modifies this`gender, store
      ensures gender == Some(choice)
      ensures store.users == WithProfile(old(store.users), userId, firstName.value, age.value, choice)
      ensures store.history == old(store.history)
      ensures old(store.Valid()) ==> store.Valid()
      ensures next == End
    {
      gender := Some(choice);
      store.UpdateProfile(userId, firstName.value, age.value, choice);
      next := End;
    }

    /** The conversation handler on `/start`: an entry point only while no
        conversation runs; the state becomes what `start` returned. */
    method OnStart(store: Store, userId: int, username: string)
      requires Valid()
      modifies this`state, store
      ensures Valid()
      ensures old(state) != End ==> state == old(state) && store.users == old(store.users)
      ensures old(state) == End ==>
                && store.users == WithUser(old(store.users), userId, username)
                && state == (if store.users[userId].firstName.None? then AskName else End)
      ensures store.history == old(store.history)
      ensures old(store.Valid()) ==> store.Valid()
    {
      if state == End {
        var next := Start(store, userId, username);
        if next.Some? {
          state := next.value;
        }
      }
    }

    /** The conversation handler on a text message: routed to the handler of
        the current state; ignored in any other state. */
    method OnText(text: string)
      requires Valid()
      modifies this
      ensures Valid()
      ensures gender == old(gender)
      ensures old(state) == AskName ==>
                state == AskAge && firstName == Some(Text.Strip(text)) && age == old(age)
      ensures old(state) == AskAge && !Text.IsDigits(text) ==>
                state == AskAge && firstName == old(firstName) && age == old(age)
      ensures old(state) == AskAge && Text.IsDigits(text) ==>
                state == AskGender && firstName == old(firstName) && age == Some(Text.ParseDigits(text))
      ensures old(state) == AskGender || old(state) == End ==>
                state == old(state) && firstName == old(firstName) && age == old(age)
    {
      if state == AskName {
        state := NameHandler(text);
      } else if state == AskAge {
        state := AgeHandler(text);
      }
    }

    /** The conversation handler on a button press: the gender choice while it
        is asked for; ignored in any other state. */
    method OnChoice(store: Store, userId: int, choice: string)
      requires Valid()
      modifies this, store
      ensures Valid()
      ensures firstName == old(firstName) && age == old(age)
      ensures old(state) == AskGender ==>
                && state == End && gender == Some(choice)
                && store.users == WithProfile(old(store.users), userId, old(firstName).value, old(age).value, choice)
      ensures old(state) != AskGender ==>
                state == old(state) && gender == old(gender) && store.users == old(store.users)
      ensures store.history == old(store.history)
      ensures old(store.Valid()) ==> store.Valid()
    {
      if state == AskGender {
        state := GenderHandler(store, userId, choice);
      }
    }
  }

  /** A whole conversation for a user the bot has never seen: a name, an age
      that is refused, a valid age and a gender choice leave one row holding
      the stripped name, the number and the choice, with balance and free flag
      still at zero. */
  method FirstConversation(store: Store, userId: int, username: string,
                           name: string, badAge: string, goodAge: string, choice: string)
      returns (talk: Conversation)
    requires userId !in store.users
    requires !Text.IsDigits(badAge) && Text.IsDigits(goodAge)
    modifies store
    ensures talk.state == End
    ensures store.users == old(store.users)[userId := User(username, Some(Text.Strip(name)),
                                Some(Text.ParseDigits(goodAge)), Some(choice), 0, 0)]
    ensures store.history == old(store.history)
  {
    talk := new Conversation();
    talk.OnStart(store, userId, username);
    assert talk.state == AskName;
    talk.OnText(name);
    talk.OnText(badAge);
    assert talk.state == AskAge;
    talk.OnText(goodAge);
    talk.OnChoice(store, userId, choice);
  }
}
