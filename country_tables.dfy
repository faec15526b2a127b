/** The country-code tables of the map popups, entry for entry as the
    source lists them (names with mis-encoded characters included). A map
    display keeps the last entry of a repeated key, as an object literal does. */
module CountryTables {
  /** The table of `AppFinal.jsx`. */
  const AppFinalCountries: map<string, string> := map[
    "US" := "United States",
    "CN" := "China",
    "IN" := "India",
    "RU" := "Russia",
    "GB" := "United Kingdom",
    "DE" := "Germany",
    "FR" := "France",
    "JP" := "Japan",
    "AU" := "Australia",
    "CA" := "Canada",
    "BR" := "Brazil",
    "ZA" := "South Africa",
    "EG" := "Egypt",
    "NG" := "Nigeria",
    "MX" := "Mexico",
    "AR" := "Argentina",
    "IT" := "Italy",
    "ES" := "Spain",
    "PK" := "Pakistan",
    "ID" := "Indonesia",
    "BD" := "Bangladesh",
    "VN" := "Vietnam",
    "PH" := "Philippines",
    "TR" := "Turkey",
    "IR" := "Iran",
    "SA" := "Saudi Arabia",
    "KR" := "South Korea",
    "UA" := "Ukraine",
    "PL" := "Poland",
    "TH" := "Thailand",
    "MY" := "Malaysia",
    "SG" := "Singapore",
    "NZ" := "New Zealand",
    "CH" := "Switzerland",
    "SE" := "Sweden",
    "NL" := "Netherlands",
    "BE" := "Belgium",
    "AT" := "Austria",
    "GR" := "Greece",
    "PT" := "Portugal",
    "IE" := "Ireland",
    "DK" := "Denmark",
    "NO" := "Norway",
    "FI" := "Finland",
    "AE" := "United Arab Emirates",
    "IL" := "Israel",
    "CL" := "Chile",
    "CO" := "Colombia",
    "PE" := "Peru",
    "VE" := "Venezuela",
    "ET" := "Ethiopia",
    "KE" := "Kenya",
    "TZ" := "Tanzania",
    "UG" := "Uganda",
    "CG" := "Republic of the Congo",
    "SD" := "Sudan",
    "DZ" := "Algeria",
    "MA" := "Morocco",
    "LY" := "Libya",
    "IQ" := "Iraq",
    "SY" := "Syria",
    "YE" := "Yemen",
    "AF" := "Afghanistan",
    "MM" := "Myanmar",
    "LK" := "Sri Lanka",
    "KZ" := "Kazakhstan",
    "UZ" := "Uzbekistan",
    "AZ" := "Azerbaijan",
    "GE" := "Georgia",
    "AM" := "Armenia",
    "BY" := "Belarus",
    "RO" := "Romania",
    "HU" := "Hungary",
    "CZ" := "Czech Republic",
    "SK" := "Slovakia",
    "BG" := "Bulgaria",
    "RS" := "Serbia",
    "HR" := "Croatia",
    "BA" := "Bosnia and Herzegovina",
    "AL" := "Albania",
    "MK" := "North Macedonia",
    "SI" := "Slovenia",
    "LT" := "Lithuania",
    "LV" := "Latvia",
    "EE" := "Estonia",
    "IS" := "Iceland",
    "CY" := "Cyprus",
    "MT" := "Malta",
    "LU" := "Luxembourg",
    "XK" := "Kosovo",
    "PS" := "Palestine",
    "TW" := "Taiwan",
    "HK" := "Hong Kong",
    "MO" := "Macau",
    "CU" := "Cuba",
    "HT" := "Haiti",
    "DO" := "Dominican Republic",
    "JM" := "Jamaica",
    "TT" := "Trinidad and Tobago",
    "BS" := "Bahamas",
    "BB" := "Barbados",
    "LC" := "Saint Lucia",
    "GD" := "Grenada",
    "VC" := "Saint Vincent and the Grenadines",
    "DM" := "Dominica",
    "AG" := "Antigua and Barbuda",
    "KN" := "Saint Kitts and Nevis",
    "BZ" := "Belize",
    "GT" := "Guatemala",
    "SV" := "El Salvador",
    "HN" := "Honduras",
    "NI" := "Nicaragua",
    "CR" := "Costa Rica",
    "PA" := "Panama",
    "EC" := "Ecuador",
    "BO" := "Bolivia",
    "PY" := "Paraguay",
    "UY" := "Uruguay",
    "GY" := "Guyana",
    "SR" := "Suriname",
    "GF" := "French Guiana",
    "GS" := "South Georgia and the South Sandwich Islands",
    "AQ" := "Antarctica",
    "GL" := "Greenland",
    "PM" := "Saint Pierre and Miquelon",
    "NC" := "New Caledonia",
    "VU" := "Vanuatu",
    "SB" := "Solomon Islands",
    "PG" := "Papua New Guinea",
    "FM" := "Federated States of Micronesia",
    "MH" := "Marshall Islands",
    "WS" := "Samoa",
    "TO" := "Tonga",
    "FJ" := "Fiji",
    "PW" := "Palau",
    "TL" := "Timor-Leste",
    "BN" := "Brunei",
    "LA" := "Laos",
    "KH" := "Cambodia",
    "MV" := "Maldives",
    "BT" := "Bhutan",
    "KG" := "Kyrgyzstan",
    "TJ" := "Tajikistan",
    "TM" := "Turkmenistan",
    "ER" := "Eritrea",
    "DJ" := "Djibouti",
    "SO" := "Somalia",
    "SS" := "South Sudan",
    "CF" := "Central African Republic",
    "CM" := "Cameroon",
    "GA" := "Gabon",
    "AO" := "Angola",
    "ZM" := "Zambia",
    "ZW" := "Zimbabwe",
    "MW" := "Malawi",
    "MZ" := "Mozambique",
    "BW" := "Botswana",
    "NA" := "Namibia",
    "LS" := "Lesotho",
    "SZ" := "Eswatini",
    "MG" := "Madagascar",
    "KM" := "Comoros",
    "SC" := "Seychelles",
    "MU" := "Mauritius",
    "CV" := "Cape Verde",
    "ST" := "Sao Tome and Principe",
    "GW" := "Guinea-Bissau",
    "GM" := "Gambia",
    "SN" := "Senegal",
    "MR" := "Mauritania",
    "ML" := "Mali",
    "BF" := "Burkina Faso",
    "NE" := "Niger",
    "TD" := "Chad",
    "BI" := "Burundi",
    "RW" := "Rwanda",
    "SL" := "Sierra Leone",
    "LR" := "Liberia",
    "CI" := "Ivory Coast",
    "GH" := "Ghana",
    "TG" := "Togo",
    "BJ" := "Benin",
    "GQ" := "Equatorial Guinea",
    "RE" := "R√©union",
    "YT" := "Mayotte",
    "SH" := "Saint Helena",
    "PN" := "Pitcairn Islands",
    "TK" := "Tokelau",
    "NU" := "Niue",
    "CK" := "Cook Islands",
    "GI" := "Gibraltar",
    "IM" := "Isle of Man",
    "JE" := "Jersey",
    "GG" := "Guernsey",
    "FO" := "Faroe Islands",
    "AX" := "√Öland Islands",
    "SJ" := "Svalbard and Jan Mayen",
    "BV" := "Bouvet Island",
    "CC" := "Cocos (Keeling) Islands",
    "CX" := "Christmas Island",
    "HM" := "Heard Island and McDonald Islands",
    "NF" := "Norfolk Island",
    "MP" := "Northern Mariana Islands",
    "UM" := "United States Minor Outlying Islands",
    "VI" := "U.S. Virgin Islands",
    "AS" := "American Samoa",
    "GU" := "Guam",
    "PR" := "Puerto Rico",
    "AI" := "Anguilla",
    "BM" := "Bermuda",
    "KY" := "Cayman Islands",
    "MS" := "Montserrat",
    "TC" := "Turks and Caicos Islands",
    "VG" := "British Virgin Islands"
  ]

  /** The table of `AppSimple.jsx`; "NP", "FK", "WF", "TV", "KI", "NR", "SM", "VA", "LI", "MC", "AD" and "CD" are listed twice, and for "CD" the two names differ. */
  const AppSimpleCountries: map<string, string> := AppSimpleLines90To128 + AppSimpleLines129To137

  /** Lines 90-128 of the `AppSimple.jsx` literal. */
  const AppSimpleLines90To128: map<string, string> := map[
    "US" := "United States",
    "CN" := "China",
    "IN" := "India",
    "RU" := "Russia",
    "GB" := "United Kingdom",
    "DE" := "Germany",
    "FR" := "France",
    "JP" := "Japan",
    "AU" := "Australia",
    "CA" := "Canada",
    "BR" := "Brazil",
    "ZA" := "South Africa",
    "EG" := "Egypt",
    "NG" := "Nigeria",
    "MX" := "Mexico",
    "AR" := "Argentina",
    "IT" := "Italy",
    "ES" := "Spain",
    "PK" := "Pakistan",
    "ID" := "Indonesia",
    "BD" := "Bangladesh",
    "VN" := "Vietnam",
    "PH" := "Philippines",
    "TR" := "Turkey",
    "IR" := "Iran",
    "SA" := "Saudi Arabia",
    "KR" := "South Korea",
    "UA" := "Ukraine",
    "PL" := "Poland",
    "TH" := "Thailand",
    "MY" := "Malaysia",
    "SG" := "Singapore",
    "NZ" := "New Zealand",
    "CH" := "Switzerland",
    "SE" := "Sweden",
    "NL" := "Netherlands",
    "BE" := "Belgium",
    "AT" := "Austria",
    "GR" := "Greece",
    "PT" := "Portugal",
    "IE" := "Ireland",
    "DK" := "Denmark",
    "NO" := "Norway",
    "FI" := "Finland",
    "AE" := "United Arab Emirates",
    "IL" := "Israel",
    "CL" := "Chile",
    "CO" := "Colombia",
    "PE" := "Peru",
    "VE" := "Venezuela",
    "ET" := "Ethiopia",
    "KE" := "Kenya",
    "TZ" := "Tanzania",
    "UG" := "Uganda",
    "CD" := "DR Congo",
    "SD" := "Sudan",
    "DZ" := "Algeria",
    "MA" := "Morocco",
    "LY" := "Libya",
    "IQ" := "Iraq",
    "SY" := "Syria",
    "YE" := "Yemen",
    "AF" := "Afghanistan",
    "MM" := "Myanmar",
    "LK" := "Sri Lanka",
    "NP" := "Nepal",
    "KZ" := "Kazakhstan",
    "UZ" := "Uzbekistan",
    "AZ" := "Azerbaijan",
    "GE" := "Georgia",
    "AM" := "Armenia",
    "BY" := "Belarus",
    "RO" := "Romania",
    "HU" := "Hungary",
    "CZ" := "Czech Republic",
    "SK" := "Slovakia",
    "BG" := "Bulgaria",
    "RS" := "Serbia",
    "HR" := "Croatia",
    "BA" := "Bosnia and Herzegovina",
    "AL" := "Albania",
    "MK" := "North Macedonia",
    "SI" := "Slovenia",
    "LT" := "Lithuania",
    "LV" := "Latvia",
    "EE" := "Estonia",
    "IS" := "Iceland",
    "CY" := "Cyprus",
    "MT" := "Malta",
    "LU" := "Luxembourg",
    "AD" := "Andorra",
    "MC" := "Monaco",
    "SM" := "San Marino",
    "VA" := "Vatican City",
    "LI" := "Liechtenstein",
    "XK" := "Kosovo",
    "PS" := "Palestine",
    "TW" := "Taiwan",
    "HK" := "Hong Kong",
    "MO" := "Macau",
    "CU" := "Cuba",
    "HT" := "Haiti",
    "DO" := "Dominican Republic",
    "JM" := "Jamaica",
    "TT" := "Trinidad and Tobago",
    "BS" := "Bahamas",
    "BB" := "Barbados",
    "LC" := "Saint Lucia",
    "GD" := "Grenada",
    "VC" := "Saint Vincent and the Grenadines",
    "DM" := "Dominica",
    "AG" := "Antigua and Barbuda",
    "KN" := "Saint Kitts and Nevis",
    "BZ" := "Belize",
    "GT" := "Guatemala",
    "SV" := "El Salvador",
    "HN" := "Honduras",
    "NI" := "Nicaragua",
    "CR" := "Costa Rica",
    "PA" := "Panama",
    "EC" := "Ecuador",
    "BO" := "Bolivia",
    "PY" := "Paraguay",
    "UY" := "Uruguay",
    "GY" := "Guyana",
    "SR" := "Suriname",
    "GF" := "French Guiana",
    "FK" := "Falkland Islands",
    "GS" := "South Georgia and the South Sandwich Islands",
    "AQ" := "Antarctica",
    "GL" := "Greenland",
    "PM" := "Saint Pierre and Miquelon",
    "WF" := "Wallis and Futuna",
    "NC" := "New Caledonia",
    "VU" := "Vanuatu",
    "SB" := "Solomon Islands",
    "PG" := "Papua New Guinea",
    "FM" := "Federated States of Micronesia",
    "MH" := "Marshall Islands",
    "KI" := "Kiribati",
    "NR" := "Nauru",
    "TV" := "Tuvalu",
    "WS" := "Samoa",
    "TO" := "Tonga",
    "FJ" := "Fiji",
    "PW" := "Palau",
    "TL" := "Timor-Leste",
    "BN" := "Brunei",
    "LA" := "Laos",
    "KH" := "Cambodia",
    "MV" := "Maldives",
    "BT" := "Bhutan",
    "NP" := "Nepal",
    "KG" := "Kyrgyzstan",
    "TJ" := "Tajikistan",
    "TM" := "Turkmenistan",
    "ER" := "Eritrea",
    "DJ" := "Djibouti",
    "SO" := "Somalia",
    "SS" := "South Sudan",
    "CF" := "Central African Republic",
    "CM" := "Cameroon",
    "GA" := "Gabon",
    "CG" := "Republic of the Congo",
    "AO" := "Angola",
    "ZM" := "Zambia",
    "ZW" := "Zimbabwe",
    "MW" := "Malawi",
    "MZ" := "Mozambique",
    "BW" := "Botswana",
    "NA" := "Namibia",
    "LS" := "Lesotho",
    "SZ" := "Eswatini",
    "MG" := "Madagascar",
    "KM" := "Comoros",
    "SC" := "Seychelles",
    "MU" := "Mauritius",
    "CV" := "Cape Verde",
    "ST" := "Sao Tome and Principe",
    "GW" := "Guinea-Bissau",
    "GM" := "Gambia",
    "SN" := "Senegal",
    "MR" := "Mauritania",
    "ML" := "Mali",
    "BF" := "Burkina Faso",
    "NE" := "Niger",
    "TD" := "Chad",
    "BI" := "Burundi",
    "RW" := "Rwanda",
    "SL" := "Sierra Leone",
    "LR" := "Liberia",
    "CI" := "Ivory Coast",
    "GH" := "Ghana",
    "TG" := "Togo"
  ]

  /** Lines 129-137 of the `AppSimple.jsx` literal: a key here overrides the same key above. */
  const AppSimpleLines129To137: map<string, string> := map[
    "BJ" := "Benin",
    "GQ" := "Equatorial Guinea",
    "CD" := "Democratic Republic of the Congo",
    "RE" := "R√©union",
    "YT" := "Mayotte",
    "SH" := "Saint Helena",
    "FK" := "Falkland Islands",
    "PN" := "Pitcairn Islands",
    "TK" := "Tokelau",
    "NU" := "Niue",
    "CK" := "Cook Islands",
    "WF" := "Wallis and Futuna",
    "TV" := "Tuvalu",
    "KI" := "Kiribati",
    "NR" := "Nauru",
    "SM" := "San Marino",
    "VA" := "Vatican City",
    "LI" := "Liechtenstein",
    "MC" := "Monaco",
    "AD" := "Andorra",
    "GI" := "Gibraltar",
    "IM" := "Isle of Man",
    "JE" := "Jersey",
    "GG" := "Guernsey",
    "FO" := "Faroe Islands",
    "AX" := "√Öland Islands",
    "SJ" := "Svalbard and Jan Mayen",
    "BV" := "Bouvet Island",
    "CC" := "Cocos (Keeling) Islands",
    "CX" := "Christmas Island",
    "HM" := "Heard Island and McDonald Islands",
    "NF" := "Norfolk Island",
    "MP" := "Northern Mariana Islands",
    "UM" := "United States Minor Outlying Islands",
    "VI" := "U.S. Virgin Islands",
    "AS" := "American Samoa",
    "GU" := "Guam",
    "PR" := "Puerto Rico",
    "AI" := "Anguilla",
    "BM" := "Bermuda",
    "KY" := "Cayman Islands",
    "MS" := "Montserrat",
    "TC" := "Turks and Caicos Islands",
    "VG" := "British Virgin Islands"
  ]

  /** The table of `getCountryName` in `AppWithAuth.jsx`. */
  const AppWithAuthCountries: map<string, string> := map[
    "NZ" := "New Zealand",
    "AS" := "American Samoa",
    "US" := "United States",
    "CN" := "China",
    "JP" := "Japan",
    "KR" := "South Korea",
    "AU" := "Australia",
    "GB" := "United Kingdom",
    "FR" := "France",
    "DE" := "Germany",
    "IT" := "Italy",
    "ES" := "Spain",
    "RU" := "Russia",
    "IN" := "India",
    "BR" := "Brazil",
    "CA" := "Canada",
    "BG" := "Bulgaria",
    "PK" := "Pakistan",
    "CH" := "Switzerland",
    "MC" := "Monaco",
    "TH" := "Thailand",
    "MY" := "Malaysia",
    "SG" := "Singapore",
    "ID" := "Indonesia",
    "PH" := "Philippines",
    "VN" := "Vietnam",
    "MM" := "Myanmar",
    "KH" := "Cambodia",
    "LA" := "Laos",
    "BN" := "Brunei",
    "TL" := "East Timor",
    "MN" := "Mongolia",
    "KZ" := "Kazakhstan",
    "UZ" := "Uzbekistan",
    "KG" := "Kyrgyzstan",
    "TJ" := "Tajikistan",
    "TM" := "Turkmenistan",
    "AF" := "Afghanistan",
    "BD" := "Bangladesh",
    "LK" := "Sri Lanka",
    "MV" := "Maldives",
    "NP" := "Nepal",
    "BT" := "Bhutan",
    "IR" := "Iran",
    "IQ" := "Iraq",
    "SY" := "Syria",
    "LB" := "Lebanon",
    "JO" := "Jordan",
    "IL" := "Israel",
    "PS" := "Palestine",
    "SA" := "Saudi Arabia",
    "AE" := "United Arab Emirates",
    "QA" := "Qatar",
    "KW" := "Kuwait",
    "BH" := "Bahrain",
    "OM" := "Oman",
    "YE" := "Yemen",
    "TR" := "Turkey",
    "CY" := "Cyprus",
    "GR" := "Greece",
    "AL" := "Albania",
    "MK" := "North Macedonia",
    "RS" := "Serbia",
    "ME" := "Montenegro",
    "BA" := "Bosnia and Herzegovina",
    "HR" := "Croatia",
    "SI" := "Slovenia",
    "SK" := "Slovakia",
    "CZ" := "Czech Republic",
    "HU" := "Hungary",
    "RO" := "Romania",
    "MD" := "Moldova",
    "UA" := "Ukraine",
    "BY" := "Belarus",
    "LT" := "Lithuania",
    "LV" := "Latvia",
    "EE" := "Estonia",
    "FI" := "Finland",
    "SE" := "Sweden",
    "NO" := "Norway",
    "DK" := "Denmark",
    "IS" := "Iceland",
    "IE" := "Ireland",
    "PT" := "Portugal",
    "MT" := "Malta",
    "LU" := "Luxembourg",
    "BE" := "Belgium",
    "NL" := "Netherlands",
    "AT" := "Austria",
    "LI" := "Liechtenstein",
    "AD" := "Andorra",
    "SM" := "San Marino",
    "VA" := "Vatican City",
    "PL" := "Poland",
    "EG" := "Egypt",
    "LY" := "Libya",
    "TN" := "Tunisia",
    "DZ" := "Algeria",
    "MA" := "Morocco",
    "SD" := "Sudan",
    "SS" := "South Sudan",
    "ET" := "Ethiopia",
    "ER" := "Eritrea",
    "DJ" := "Djibouti",
    "SO" := "Somalia",
    "KE" := "Kenya",
    "UG" := "Uganda",
    "TZ" := "Tanzania",
    "RW" := "Rwanda",
    "BI" := "Burundi",
    "MW" := "Malawi",
    "ZM" := "Zambia",
    "ZW" := "Zimbabwe",
    "BW" := "Botswana",
    "NA" := "Namibia",
    "ZA" := "South Africa",
    "LS" := "Lesotho",
    "SZ" := "Eswatini",
    "MG" := "Madagascar",
    "MU" := "Mauritius",
    "SC" := "Seychelles",
    "KM" := "Comoros",
    "MZ" := "Mozambique",
    "AO" := "Angola",
    "CD" := "Democratic Republic of the Congo",
    "CG" := "Republic of the Congo",
    "CF" := "Central African Republic",
    "TD" := "Chad",
    "CM" := "Cameroon",
    "GQ" := "Equatorial Guinea",
    "GA" := "Gabon",
    "ST" := "S√£o Tom√© and Pr√≠ncipe",
    "NG" := "Nigeria",
    "NE" := "Niger",
    "BF" := "Burkina Faso",
    "ML" := "Mali",
    "SN" := "Senegal",
    "GM" := "Gambia",
    "GW" := "Guinea-Bissau",
    "GN" := "Guinea",
    "SL" := "Sierra Leone",
    "LR" := "Liberia",
    "CI" := "Ivory Coast",
    "GH" := "Ghana",
    "TG" := "Togo",
    "BJ" := "Benin",
    "MR" := "Mauritania",
    "CV" := "Cape Verde",
    "AR" := "Argentina",
    "BO" := "Bolivia",
    "CL" := "Chile",
    "CO" := "Colombia",
    "EC" := "Ecuador",
    "FK" := "Falkland Islands",
    "GF" := "French Guiana",
    "GY" := "Guyana",
    "PY" := "Paraguay",
    "PE" := "Peru",
    "SR" := "Suriname",
    "UY" := "Uruguay",
    "VE" := "Venezuela",
    "MX" := "Mexico",
    "GT" := "Guatemala",
    "BZ" := "Belize",
    "SV" := "El Salvador",
    "HN" := "Honduras",
    "NI" := "Nicaragua",
    "CR" := "Costa Rica",
    "PA" := "Panama",
    "CU" := "Cuba",
    "JM" := "Jamaica",
    "HT" := "Haiti",
    "DO" := "Dominican Republic",
    "PR" := "Puerto Rico",
    "TT" := "Trinidad and Tobago",
    "BB" := "Barbados",
    "LC" := "Saint Lucia",
    "VC" := "Saint Vincent and the Grenadines",
    "GD" := "Grenada",
    "AG" := "Antigua and Barbuda",
    "KN" := "Saint Kitts and Nevis",
    "DM" := "Dominica",
    "BS" := "Bahamas",
    "GL" := "Greenland"
  ]

}
