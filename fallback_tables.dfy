/** The fallback tables embedded in the lookup script (myjab_main.py,
    lines 28-116): every state of the registry, and the districts of Madhya
    Pradesh. They stand in for the API when a fetch fails. Each table is
    written as two displays joined by `+`, which keeps indexing into it cheap
    for the verifier; the entries and their order are those of the script. */
module FallbackTables {
  import opened CowinClient

  /** `ALL_STATES`: 37 states, the i-th of which has id i. */
  function AllStates(): (r: seq<State>)
    ensures |r| == 37
    ensures forall i :: 0 <= i < |r| ==> r[i].stateId == i + 1
  {
    [ State(1, "Andaman and Nicobar Islands"),
      State(2, "Andhra Pradesh"),
      State(3, "Arunachal Pradesh"),
      State(4, "Assam"),
      State(5, "Bihar"),
      State(6, "Chandigarh"),
      State(7, "Chhattisgarh"),
      State(8, "Dadra and Nagar Haveli"),
      State(9, "Delhi"),
      State(10, "Goa"),
      State(11, "Gujarat"),
      State(12, "Haryana"),
      State(13, "Himachal Pradesh"),
      State(14, "Jammu and Kashmir"),
      State(15, "Jharkhand"),
      State(16, "Karnataka"),
      State(17, "Kerala"),
      State(18, "Ladakh"),
      State(19, "Lakshadweep") ] +
    [ State(20, "Madhya Pradesh"),
      State(21, "Maharashtra"),
      State(22, "Manipur"),
      State(23, "Meghalaya"),
      State(24, "Mizoram"),
      State(25, "Nagaland"),
      State(26, "Odisha"),
      State(27, "Puducherry"),
      State(28, "Punjab"),
      State(29, "Rajasthan"),
      State(30, "Sikkim"),
      State(31, "Tamil Nadu"),
      State(32, "Telangana"),
      State(33, "Tripura"),
      State(34, "Uttar Pradesh"),
      State(35, "Uttarakhand"),
      State(36, "West Bengal"),
      State(37, "Daman and Diu") ]
  }

  /** `MP_DISTRICTS`: 51 districts, with ids from 312 to 362. */
  function MpDistricts(): (r: seq<District>)
    ensures |r| == 51
    ensures forall i :: 0 <= i < |r| ==> 312 <= r[i].districtId <= 362
  {
    [ District(320, "Agar"),
      District(357, "Alirajpur"),
      District(334, "Anuppur"),
      District(354, "Ashoknagar"),
      District(338, "Balaghat"),
      District(343, "Barwani"),
      District(362, "Betul"),
      District(351, "Bhind"),
      District(312, "Bhopal"),
      District(342, "Burhanpur"),
      District(328, "Chhatarpur"),
      District(337, "Chhindwara"),
      District(327, "Damoh"),
      District(350, "Datia"),
      District(324, "Dewas"),
      District(341, "Dhar"),
      District(336, "Dindori"),
      District(348, "Guna"),
      District(313, "Gwalior"),
      District(361, "Harda"),
      District(360, "Hoshangabad") ] +
    [ District(314, "Indore"),
      District(315, "Jabalpur"),
      District(340, "Jhabua"),
      District(353, "Katni"),
      District(339, "Khandwa"),
      District(344, "Khargone"),
      District(335, "Mandla"),
      District(319, "Mandsaur"),
      District(347, "Morena"),
      District(352, "Narsinghpur"),
      District(323, "Neemuch"),
      District(326, "Panna"),
      District(359, "Raisen"),
      District(358, "Rajgarh"),
      District(322, "Ratlam"),
      District(316, "Rewa"),
      District(317, "Sagar"),
      District(333, "Satna"),
      District(356, "Sehore"),
      District(349, "Seoni"),
      District(332, "Shahdol"),
      District(321, "Shajapur"),
      District(346, "Sheopur"),
      District(345, "Shivpuri"),
      District(331, "Sidhi"),
      District(330, "Singrauli"),
      District(325, "Tikamgarh"),
      District(318, "Ujjain"),
      District(329, "Umaria"),
      District(355, "Vidisha") ]
  }
}
